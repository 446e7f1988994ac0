/** A run with a Task stuck behind the Group it sits in. */
module NestedStep {
  import opened Outcomes
  import opened CollectionTally
  import opened Topology
  import opened Eligibility
  import opened WaitLists
  import opened RunState
  import opened Followers
  import opened Rest
  import opened Lineage
  import opened SelfWait

  /** Sequence 0 has Group 1, which holds Task 0, and then Task 1; both Tasks are done.
      Group 2 was declared into Group 1 afterwards, and Task 2 into Group 2: it names
      Task 1 and Group 2, and is parked on Group 2. */
  const RUN := Sched(
    [TaskInfo(1, 3, -1), TaskInfo(0, 4, -1), TaskInfo(2, 6, -1)],
    [Done, Done, Pending],
    [PhaseRunning, PhaseRunning, PhaseParked],
    [[], [OnCol(1, 0)], [OnCol(2, 0)]],
    [[], [], []],
    [ColInfo(-1, 1, true), ColInfo(0, 2, false), ColInfo(1, 5, false)],
    [Tally([Member(0, 3), Member(1, 4), Member(2, 6)], 2, 0, false, 0, [], [], 0, false),
     Tally([Member(0, 3), Member(2, 6)], 1, 0, true, 4, [], [], 0, false),
     Tally([Member(2, 6)], 0, 0, false, 0, [], [2], 0, false)],
    [[], [], [OnTask(1)]], [[OnTask(2)], [], []], [[1], [0], [2]], [[1], [2], []], [0, 0, 0],
    [NoBuilder, NoBuilder, NoBuilder],
    [], [], 1, 1, 0, 0, 6, false, false, false,
    [[], [OnCol(1, 0)], [OnTask(1), OnCol(2, 0)]],
    [Off, Off, AtOpen(2)],
    [Missing, Missing, OnCol(2, 0)],
    [3, 4, 0],
    {}, 0, {})

  ghost predicate Infos(info: seq<TaskInfo>, cols: seq<ColInfo>) {
    && |info| == 3 && info[0] == TaskInfo(1, 3, -1) && info[1] == TaskInfo(0, 4, -1) && info[2] == TaskInfo(2, 6, -1)
    && |cols| == 3 && cols[0] == ColInfo(-1, 1, true) && cols[1] == ColInfo(0, 2, false) && cols[2] == ColInfo(1, 5, false)
  }

  lemma Declares(info: seq<TaskInfo>, cols: seq<ColInfo>)
    requires Infos(info, cols)
    ensures ColsOk(cols) && TasksOk(info, cols) && DeclaredThrough(info, cols, 6) && QueueOk(info, [])
  {
  }

  lemma Fixed(info: seq<TaskInfo>, cols: seq<ColInfo>, entry: seq<seq<Pred>>, lastStep: seq<seq<Pred>>)
    requires Infos(info, cols) && entry == [[], [], [OnTask(1)]] && lastStep == [[OnTask(2)], [], []]
    ensures Static(info, cols, 6, entry, lastStep)
  {
    Declares(info, cols);
    hide ColsOk, TasksOk, DeclaredThrough, Infos;
  }

  lemma Trees(info: seq<TaskInfo>, cols: seq<ColInfo>)
    requires Infos(info, cols)
    ensures Tree(info, cols, [[1], [0], [2]], [[1], [2], []])
  {
    assert TasksAt(info, [1], 0) && TasksAt(info, [0], 1) && TasksAt(info, [2], 2);
    assert ChildrenAt(cols, [1], 0) && ChildrenAt(cols, [2], 1) && ChildrenAt(cols, [], 2);
  }

  lemma Chains(cols: seq<ColInfo>, c: int, d: int)
    requires |cols| == 3 && cols[0] == ColInfo(-1, 1, true) && cols[1] == ColInfo(0, 2, false) && cols[2] == ColInfo(1, 5, false)
    ensures OnChain(cols, c, d) <==> 0 <= d <= c < 3
  {
    assert OnChain(cols, 0, d) <==> d == 0;
    assert OnChain(cols, 1, d) <==> 0 <= d <= 1;
  }

  lemma Belows(info: seq<TaskInfo>, cols: seq<ColInfo>, x: nat)
    requires Infos(info, cols)
    ensures Below(info, cols, x, 0) <==> x < 3
    ensures Below(info, cols, x, 1) <==> x == 0 || x == 2
    ensures Below(info, cols, x, 2) <==> x == 2
  {
    if x < 3 {
      Chains(cols, info[x].home, 0);
      Chains(cols, info[x].home, 1);
      Chains(cols, info[x].home, 2);
    }
  }

  lemma MembersOf(t: Tally, x: nat)
    ensures t.members == [Member(0, 3), Member(1, 4), Member(2, 6)] ==> (x in Ids(t.members) <==> x < 3)
    ensures t.members == [Member(0, 3), Member(2, 6)] ==> (x in Ids(t.members) <==> x == 0 || x == 2)
    ensures t.members == [Member(2, 6)] ==> (x in Ids(t.members) <==> x == 2)
  {
    if t.members == [Member(0, 3), Member(1, 4), Member(2, 6)] {
      assert t.members[0].id == 0 && t.members[1].id == 1 && t.members[2].id == 2;
    } else if t.members == [Member(0, 3), Member(2, 6)] {
      assert t.members[0].id == 0 && t.members[1].id == 2;
    } else if t.members == [Member(2, 6)] {
      assert t.members[0].id == 2;
    }
  }

  lemma MembersHere(info: seq<TaskInfo>, cols: seq<ColInfo>, t: Tally, c: nat)
    requires Infos(info, cols)
    requires || (c == 0 && t.members == [Member(0, 3), Member(1, 4), Member(2, 6)])
             || (c == 1 && t.members == [Member(0, 3), Member(2, 6)])
             || (c == 2 && t.members == [Member(2, 6)])
    ensures MembersAt(info, cols, t, c)
  {
    hide Below, Ids;
    forall x: nat ensures x in Ids(t.members) <==> Below(info, cols, x, c) {
      Belows(info, cols, x);
      MembersOf(t, x);
    }
  }

  lemma Membership()
    ensures Members(RUN.info, RUN.cols, RUN.tally)
  {
    hide MembersAt;
    MembersHere(RUN.info, RUN.cols, RUN.tally[0], 0);
    MembersHere(RUN.info, RUN.cols, RUN.tally[1], 1);
    MembersHere(RUN.info, RUN.cols, RUN.tally[2], 2);
  }

  lemma Gates()
    ensures GatesKnown(RUN.info, RUN.builder) && GatesAlone(RUN.info, RUN.dependents)
  {
  }

  lemma Lives()
    ensures Life(RUN.state, RUN.phase) && Counts(RUN.phase, 1, 1, 0, 0, {})
  {
  }

  lemma Memories()
    ensures Memory(RUN.named, RUN.preds, RUN.state) && NamedOk(RUN.named, 3, 6)
  {
    assert RUN.named[2][1..] == [OnCol(2, 0)];
    assert Forgets(RUN.named[2][1..], RUN.preds[2], RUN.state);
    assert Forgets(RUN.named[2], RUN.preds[2], RUN.state);
    assert Forgets(RUN.named[1], RUN.preds[1], RUN.state);
  }

  lemma Names()
    ensures NoGate(RUN.info, RUN.named) && NoGate(RUN.info, RUN.entry) && NoGate(RUN.info, RUN.lastStep)
    ensures Led(RUN.entry, RUN.preds, RUN.loc, RUN.edge)
  {
    assert OnCol(2, 0) in RUN.preds[2] && Leads(RUN.entry, OnCol(2, 0), OnCol(2, 0));
  }

  lemma Lists()
    ensures Located(ListsOf(RUN), RUN.loc, RUN.phase)
  {
    var w := ListsOf(RUN);
    assert Sts([]) == [];
    forall tag: Loc | tag != Off ensures ListAt(w, tag) == if tag == AtOpen(2) then multiset{2} else multiset{} {
    }
    forall tag: Loc | tag != Off ensures ListOk(ListAt(w, tag), tag, RUN.loc, RUN.phase) {
    }
  }

  lemma Waiting()
    ensures Edges(V(RUN), RUN.loc, RUN.edge, -1) && Hands(RUN.loc, RUN.phase) == {}
  {
  }

  lemma Counters0()
    ensures TallyAt(RUN.tally[0], 3, false) && Current(RUN.tally[0], RUN.state)
  {
    var m := RUN.tally[0].members;
    assert m[1..] == [Member(1, 4), Member(2, 6)] && m[1..][1..] == [Member(2, 6)] && m[1..][1..][1..] == [];
  }

  lemma Counters1()
    ensures TallyAt(RUN.tally[1], 3, false) && Current(RUN.tally[1], RUN.state)
  {
    var m := RUN.tally[1].members;
    assert m[1..] == [Member(2, 6)] && m[1..][1..] == [];
  }

  lemma Counters2()
    ensures TallyAt(RUN.tally[2], 3, false) && Current(RUN.tally[2], RUN.state)
  {
    assert RUN.tally[2].members[1..] == [];
  }

  lemma Settled()
    ensures Tallies(RUN.tally, RUN.state, RUN.cols, -1, false)
  {
    hide TallyAt, Current;
    Counters0();
    Counters1();
    Counters2();
  }

  lemma NoGates(info: seq<TaskInfo>, cols: seq<ColInfo>, state: seq<EntityState>, c: int)
    requires Infos(info, cols) && |state| == 3
    ensures PendingGates(info, cols, state, c, 3) == 0
  {
    assert PendingGates(info, cols, state, c, 1) == 0;
    assert PendingGates(info, cols, state, c, 2) == 0;
  }

  lemma Unheld()
    ensures Holds(RUN.info, RUN.cols, RUN.state, RUN.tally, -1)
  {
    NoGates(RUN.info, RUN.cols, RUN.state, 0);
    NoGates(RUN.info, RUN.cols, RUN.state, 1);
    NoGates(RUN.info, RUN.cols, RUN.state, 2);
  }

  lemma Unstopped(s: Sched)
    requires s.stoppedAfter == [0, 0, 0]
    ensures Stops(s)
  {
  }

  lemma Starts()
    ensures Started(RUN.named, RUN.phase, RUN.startedAt, RUN.state, RUN.tally) && StartsPast(RUN.startedAt, RUN.tally, 6)
  {
    assert RUN.named[0] == [];
    assert Secured(OnCol(1, 0), 4, RUN.state, RUN.tally);
  }

  lemma RunGood()
    ensures Good(RUN)
  {
    hide Static, Tree, Members, Life, Memory, Tallies, Located, Edges, Led, QueueOk, Counts, Holds, GatesKnown,
        Started, StartsPast, NoGate, GatesAlone, NamedOk, Hands, Stops;
    Declares(RUN.info, RUN.cols);
    Fixed(RUN.info, RUN.cols, RUN.entry, RUN.lastStep);
    Trees(RUN.info, RUN.cols);
    Membership();
    Gates();
    Lives();
    Memories();
    Names();
    Lists();
    Waiting();
    Settled();
    Unheld();
    Unstopped(RUN);
    Starts();
  }

  // ---- what is on record --------------------------------------------------------

  lemma StepsKnown()
    ensures From(WebOf(RUN), [OnTask(2)], OnTask(1), Inside(RUN, 0))
    ensures From(WebOf(RUN), [OnTask(2)], OnCol(1, 0), Inside(RUN, 0))
    ensures From(WebOf(RUN), RUN.named[1], OnCol(1, 0), Inside(RUN, 0))
  {
    var w, via := WebOf(RUN), Inside(RUN, 0);
    Belows(RUN.info, RUN.cols, 1);
    Belows(RUN.info, RUN.cols, 2);
    assert OnTask(1) in via && OnTask(2) in via;
    FromHere(w, [OnTask(2)], OnTask(2), via);
    assert OnTask(1) in StartsAfter(w, OnTask(2)) && OnCol(1, 0) in StartsAfter(w, OnTask(1));
    FromHere(w, StartsAfter(w, OnTask(2)), OnTask(1), via);
    FromHere(w, StartsAfter(w, OnTask(1)), OnCol(1, 0), via);
    FromOn(w, [OnTask(2)], OnTask(2), OnTask(1), via);
    FromOn(w, [OnTask(2)], OnTask(1), OnCol(1, 0), via);
  }

  lemma RunLatest(a: nat)
    ensures Latest(RUN, a)
  {
    hide From, Inside;
    StepsKnown();
    forall m ensures StepKnown(RUN, a, m) {
      if a < 3 && InSequence(RUN, m, a) {
        assert a == 0 && (m == TaskNode(1) || m == ColNode(1));
        assert On(OnTask(1), TaskNode(1)) && On(OnCol(1, 0), ColNode(1));
      }
    }
    assert InSequence(RUN, TaskNode(1), 0);
  }

  lemma RunInOrder(n: Node, m: Node)
    ensures InOrder(RUN, n, m)
  {
    hide From, Inside;
    StepsKnown();
    var a := HomeAt(RUN, n);
    if InSequence(RUN, n, a) && InSequence(RUN, m, a) && DeclAt(RUN, m) < DeclAt(RUN, n) {
      assert n == TaskNode(1) && m == ColNode(1);
      assert On(OnCol(1, 0), m);
    }
  }

  lemma RunInherits(n: Node)
    requires NodeAt(RUN, n)
    ensures Inherits(RUN, n)
  {
    if HomeAt(RUN, n) == 2 {
      assert n == TaskNode(2) && OnTask(1) in RUN.named[2];
      FromHere(WebOf(RUN), RUN.named[2], OnTask(1), Inside(RUN, 2));
    }
  }

  lemma RunLines()
    ensures Lines(RUN)
  {
    hide Inherits, InOrder, Latest, From;
    forall n | NodeAt(RUN, n) ensures Inherits(RUN, n) {
      RunInherits(n);
    }
    forall n, m ensures InOrder(RUN, n, m) {
      RunInOrder(n, m);
    }
    forall a: nat ensures Latest(RUN, a) {
      RunLatest(a);
    }
  }

  lemma RunTraced()
    ensures Traced(RUN)
  {
    hide Lines;
    RunLines();
    forall e | From(WebOf(RUN), RUN.named[1], e, Clean(RUN)) ensures Firm(RUN, e) {
      var p := FromSplit(WebOf(RUN), RUN.named[1], e, Clean(RUN));
      assert p == OnCol(1, 0);
      if e != p {
        var q := FromSplit(WebOf(RUN), StartsAfter(WebOf(RUN), p), e, Clean(RUN));
      }
    }
    forall e ensures !From(WebOf(RUN), RUN.named[0], e, Clean(RUN)) {
    }
  }

  /** Task 2 is stuck behind Group 2, which it sits in. */
  lemma RunStuck()
    ensures Stuck(RUN, 2, 2) && RUN.phase[2] == PhaseParked && RUN.edge[2] == OnCol(2, 0)
  {
    Belows(RUN.info, RUN.cols, 2);
  }
}
