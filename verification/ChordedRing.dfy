/** A ring of parked Tasks, each naming the next, that is not Blocked whole: the
    search reports a shorter cycle through it and leaves one of its Tasks out. */
module ChordedRing {
  import opened Outcomes
  import opened CollectionTally
  import opened Topology
  import opened Eligibility
  import opened WaitLists
  import opened RunState
  import opened Cascades
  import opened Followers
  import opened Rest
  import opened Lineage
  import opened Waiting
  import opened Rings
  import opened DepthFirst
  import Cycles
  import Order = LedgerOrder

  /** Task 0 names Tasks 1 and 2, Task 1 names Task 0, and Task 2 names Task 1; all are
      submitted. */
  const RUN := Sched(
    [TaskInfo(-1, 1, -1), TaskInfo(-1, 2, -1), TaskInfo(-1, 3, -1)],
    [Pending, Pending, Pending],
    [PhaseParked, PhaseParked, PhaseParked],
    [[OnTask(1), OnTask(2)], [OnTask(0)], [OnTask(1)]],
    [[1], [0, 2], []],
    [], [], [], [], [], [], [], [],
    [], [], 3, 3, 0, 0, 3, false, false, false,
    [[OnTask(1), OnTask(2)], [OnTask(0)], [OnTask(1)]],
    [AtTask(1), AtTask(0), AtTask(1)],
    [OnTask(1), OnTask(0), OnTask(1)],
    [0, 0, 0],
    {}, 0, {})

  ghost predicate Infos(info: seq<TaskInfo>) {
    |info| == 3 && info[0] == TaskInfo(-1, 1, -1) && info[1] == TaskInfo(-1, 2, -1) && info[2] == TaskInfo(-1, 3, -1)
  }

  lemma Declares(info: seq<TaskInfo>)
    requires Infos(info)
    ensures Static(info, [], 3, [], []) && QueueOk(info, [])
  {
  }

  lemma Alone(info: seq<TaskInfo>)
    requires Infos(info)
    ensures Tree(info, [], [], []) && Members(info, [], []) && GatesKnown(info, []) && GatesAlone(info, [[1], [0, 2], []])
  {
  }

  lemma Lives()
    ensures Life(RUN.state, RUN.phase) && Counts(RUN.phase, 3, 3, 0, 0, {})
  {
    assert CountPhase(RUN.phase[3..], PhaseParked) == 0 && RUN.phase[1..][1..] == RUN.phase[2..] && RUN.phase[2..][1..] == RUN.phase[3..];
    assert CountPhase(RUN.phase[3..], PhaseQueued) == 0;
  }

  lemma NoContainers(s: Sched)
    requires |s.info| == |s.state| && s.cols == [] && s.stoppedAfter == []
    ensures Tallies([], s.state, [], -1, false) && Stops(s) && RunState.Holds(s.info, [], s.state, [], -1)
  {
  }

  lemma Names(info: seq<TaskInfo>, named: seq<seq<Pred>>)
    requires Infos(info) && |named| == 3
    requires named[0] == [OnTask(1), OnTask(2)] && named[1] == [OnTask(0)] && named[2] == [OnTask(1)]
    ensures NamedOk(named, 0, 3) && NoGate(info, named) && NoGate(info, [])
  {
    forall x | 0 <= x < 3 ensures PredsOk(named[x], 3, 0) && forall p :: p in named[x] ==> p.OnTask? && p.t < 3 {
    }
  }

  lemma Remembers()
    ensures Memory(RUN.named, RUN.preds, RUN.state)
  {
    forall x | 0 <= x < 3 ensures Forgets(RUN.named[x], RUN.preds[x], RUN.state) {
      ForgetsNothing(RUN.named[x], RUN.state);
    }
  }

  lemma Leading(preds: seq<seq<Pred>>, loc: seq<Loc>, edge: seq<Pred>)
    requires |preds| == |loc| == |edge| == 3 && forall x :: 0 <= x < 3 ==> preds[x] != [] && edge[x] == preds[x][0]
    ensures Led([], preds, loc, edge)
  {
    forall x | 0 <= x < |loc| && Waits(loc[x]) ensures exists p :: p in preds[x] && Leads([], p, edge[x]) {
      assert preds[x][0] in preds[x] && Leads([], preds[x][0], edge[x]);
    }
  }

  lemma ListedAt(w: Lists, loc: seq<Loc>, phase: seq<Phase>, tag: Loc)
    requires |loc| == |phase| == 3 && loc[0] == AtTask(1) && loc[1] == AtTask(0) && loc[2] == AtTask(1) && tag != Off
    requires w.queue == [] && w.woken == [] && w.tally == [] && |w.dependents| == 3
    requires w.dependents[0] == [1] && w.dependents[1] == [0, 2] && w.dependents[2] == []
    ensures ListOk(ListAt(w, tag), tag, loc, phase)
  {
    if tag == AtTask(0) {
      assert ListAt(w, tag) == multiset{1};
    } else if tag == AtTask(1) {
      assert ListAt(w, tag) == multiset{0, 2};
    } else {
      assert ListAt(w, tag) == multiset{};
      assert forall x :: 0 <= x < 3 ==> loc[x] != tag;
    }
  }

  lemma Listed(loc: seq<Loc>, phase: seq<Phase>, w: Lists)
    requires |loc| == |phase| == 3 && loc[0] == AtTask(1) && loc[1] == AtTask(0) && loc[2] == AtTask(1)
    requires phase[0] == PhaseParked && phase[1] == PhaseParked && phase[2] == PhaseParked
    requires w.queue == [] && w.woken == [] && w.tally == [] && |w.dependents| == 3
    requires w.dependents[0] == [1] && w.dependents[1] == [0, 2] && w.dependents[2] == []
    ensures Located(w, loc, phase) && Hands(loc, phase) == {}
  {
    hide ListOk, ListAt;
    forall tag: Loc | tag != Off ensures ListOk(ListAt(w, tag), tag, loc, phase) {
      ListedAt(w, loc, phase, tag);
    }
  }

  lemma Waited()
    ensures Edges(V(RUN), RUN.loc, RUN.edge, -1)
    ensures Started(RUN.named, RUN.phase, RUN.startedAt, RUN.state, []) && StartsPast(RUN.startedAt, [], 3)
  {
  }

  lemma RunGood()
    ensures Good(RUN)
  {
    hide Static, Tree, Members, Life, Memory, Tallies, Located, Edges, Led, QueueOk, Counts, RunState.Holds, GatesKnown,
        Started, StartsPast, NoGate, GatesAlone, NamedOk, Hands, Stops;
    Declares(RUN.info);
    Alone(RUN.info);
    Lives();
    Names(RUN.info, RUN.named);
    Remembers();
    Leading(RUN.preds, RUN.loc, RUN.edge);
    Listed(RUN.loc, RUN.phase, ListsOf(RUN));
    Waited();
    NoContainers(RUN);
  }

  lemma RunTraced()
    ensures Traced(RUN)
  {
    assert Lines(RUN);
  }

  // ---- the search ---------------------------------------------------------

  lemma Apart<N>(a: N, b: N, c: N)
    requires a != b && b != c && a != c
    ensures a in [a] && b !in [a] && c !in [a] && a in [a, b] && c !in [a, b] && b !in [a, c]
    ensures [] + [a] == [a] && [a] + [b] == [a, b] && [a] + [c] == [a, c]
    ensures Tail([a, b], a) == [a, b]
  {
    assert [a, b][..1] == [a];
    assert Tail([a], a) == [a];
  }

  lemma WaysAre<N>(a: N, b: N, c: N)
    ensures [] + [[] + [a]] == [[a]]
    ensures [[a]] + [[a] + [b]] == [[a], [a, b]]
    ensures [[a], [a, b]] + [[a] + [c]] == [[a], [a, b], [a, c]]
  {
    assert [] + [a] == [a] && [a] + [b] == [a, b] && [a] + [c] == [a, c];
  }

  lemma NothingMet<N>()
    ensures Met<N>([]) == {}
  {
  }

  lemma MetNow<N>(within: set<N>, a: N, b: N, c: N)
    ensures Met<N>([]) == {} && Met([[a]]) == {a} && Met([[a], [a, b]]) == {a, b} && Met([[a], [a, b], [a, c]]) == {a, b, c}
  {
    hide Met;
    WaysAre(a, b, c);
    NothingMet<N>();
    MetOne(within, [], [], a);
    MetOne(within, [[a]], [a], b);
    MetOne(within, [[a], [a, b]], [a], c);
  }

  /** From a through b, which leads back to a. */
  lemma ThroughB<N(!new)>(edges: N --> seq<N>, within: set<N>, a: N, b: N, c: N)
    requires Graph(edges, within) && {a, b, c} <= within && a != b && b != c && a != c && edges(b) == [a]
    ensures Met([[a]]) == {a}
    ensures Enter(edges, within, [a], b, Trace([[a]], [])) == Trace([[a], [a, b]], [[a, b, a]])
  {
    hide Met;
    Apart(a, b, c);
    MetNow(within, a, b, c);
    var t := Trace([[a], [a, b]], []);
    WaysAre(a, b, c);
    assert [a, b] + [a] == [a, b, a];
    assert t.cycles + [[a, b] + [a]] == [[a, b, a]];
    assert [a][1..] == [];
    assert Follow(edges, within, [a, b], [a], t) == Follow(edges, within, [a, b], [a][1..], t.(cycles := [[a, b, a]]));
  }

  /** From a to c, which leads to b alone, and b is done. */
  lemma ThroughC<N(!new)>(edges: N --> seq<N>, within: set<N>, a: N, b: N, c: N, cycles: seq<seq<N>>)
    requires Graph(edges, within) && {a, b, c} <= within && a != b && b != c && a != c && edges(c) == [b]
    ensures Met([[a], [a, b]]) == {a, b}
    ensures Enter(edges, within, [a], c, Trace([[a], [a, b]], cycles)) == Trace([[a], [a, b], [a, c]], cycles)
  {
    hide Met;
    Apart(a, b, c);
    MetNow(within, a, b, c);
    var t := Trace([[a], [a, b], [a, c]], cycles);
    assert [[a], [a, b]] + [[a, c]] == [[a], [a, b], [a, c]];
    assert [b][1..] == [] && [b][0] == b;
    assert Follow(edges, within, [a, c], [b], t) == Follow(edges, within, [a, c], [b][1..], t);
  }

  lemma FromA<N(!new)>(edges: N --> seq<N>, within: set<N>, a: N, b: N, c: N)
    requires Graph(edges, within) && {a, b, c} <= within && a != b && b != c && a != c
    requires edges(a) == [b, c] && edges(b) == [a] && edges(c) == [b]
    ensures Met<N>([]) == {}
    ensures Enter(edges, within, [], a, Trace([], [])) == Trace([[a], [a, b], [a, c]], [[a, b, a]])
  {
    hide Met;
    Apart(a, b, c);
    MetNow(within, a, b, c);
    ThroughB(edges, within, a, b, c);
    ThroughC(edges, within, a, b, c, [[a, b, a]]);
    hide Enter;
    var t, u, v := Trace([[a]], []), Trace([[a], [a, b]], [[a, b, a]]), Trace([[a], [a, b], [a, c]], [[a, b, a]]);
    assert [b, c][1..] == [c] && [c][1..] == [] && [b, c][0] == b && [c][0] == c;
    assert Follow(edges, within, [a], [c], u) == Follow(edges, within, [a], [c][1..], v);
    assert Follow(edges, within, [a], [b, c], t) == Follow(edges, within, [a], [b, c][1..], u);
    EnterIs(edges, within, a, [b, c]);
  }

  lemma EnterIs<N(!new)>(edges: N --> seq<N>, within: set<N>, a: N, es: seq<N>)
    requires Graph(edges, within) && a in within && edges(a) == es && a !in Met<N>([])
    ensures All(within, es) && Enter(edges, within, [], a, Trace([], [])) == Follow(edges, within, [a], es, Trace([[a]], []))
  {
    hide Follow;
    assert [] + [a] == [a] && [] + [[a]] == [[a]];
  }

  lemma Searched<N(!new)>(edges: N --> seq<N>, within: set<N>, a: N, b: N, c: N)
    requires Graph(edges, within) && {a, b, c} <= within && a != b && b != c && a != c
    requires edges(a) == [b, c] && edges(b) == [a] && edges(c) == [b]
    ensures All(within, [a, b, c])
    ensures Search(edges, within, [a, b, c]) == Trace([[a], [a, b], [a, c]], [[a, b, a]])
  {
    hide Met, Enter;
    FromA(edges, within, a, b, c);
    MetNow(within, a, b, c);
    var t := Trace([[a], [a, b], [a, c]], [[a, b, a]]);
    assert [a, b, c][1..] == [b, c] && [b, c][1..] == [c] && [c][1..] == [];
    assert FromRoots(edges, within, [c], t) == FromRoots(edges, within, [c][1..], t);
    assert FromRoots(edges, within, [b, c], t) == FromRoots(edges, within, [b, c][1..], t);
  }

  // ---- of this run --------------------------------------------------------

  lemma Reads(x: TaskId)
    requires x < 3
    ensures ViewOk(V(RUN)) && OutcomeOf(V(RUN), OnTask(x)).0 == PredPending
  {
  }

  lemma BothPending(v: View, p: Pred, q: Pred)
    requires ViewOk(v) && PredOk(p, |v.state|, |v.tally|) && PredOk(q, |v.state|, |v.tally|)
    requires OutcomeOf(v, p).0 == PredPending && OutcomeOf(v, q).0 == PredPending && !p.Missing? && !q.Missing?
    ensures PredsOk([p, q], |v.state|, |v.tally|) && PendingNodes(v, [p, q]) == [NodeOf(p), NodeOf(q)]
  {
    hide OutcomeOf, ViewOk;
    OnePending(v, q);
    assert [p, q][1..] == [q];
    assert [NodeOf(p)] + [NodeOf(q)] == [NodeOf(p), NodeOf(q)];
  }

  lemma OnePending(v: View, p: Pred)
    requires ViewOk(v) && PredOk(p, |v.state|, |v.tally|) && OutcomeOf(v, p).0 == PredPending && !p.Missing?
    ensures PredsOk([p], |v.state|, |v.tally|) && PendingNodes(v, [p]) == [NodeOf(p)]
  {
    hide OutcomeOf, ViewOk;
    assert [p][1..] == [];
    assert PendingNodes(v, []) == [];
  }

  lemma WaitsAre(s: Sched, x: TaskId)
    requires Legible(s) && x < |s.state|
    ensures x < |s.phase| && x < |s.preds| && ViewOk(V(s)) && PredsOk(s.preds[x], |s.state|, |s.tally|)
    ensures s.phase[x] == PhaseParked ==> WaitsFor(s, TaskNode(x)) == PendingNodes(V(s), s.preds[x])
  {
  }

  lemma WaitsTwo()
    ensures Legible(RUN) && WaitsFor(RUN, TaskNode(0)) == [TaskNode(1), TaskNode(2)]
  {
    RunGood();
    hide Stops, OutcomeOf, Legible, WaitsFor, PendingNodes, ViewOk, Inv;
    LegibleWhole(RUN);
    WaitsAre(RUN, 0);
    Reads(1);
    Reads(2);
    BothPending(V(RUN), OnTask(1), OnTask(2));
  }

  lemma WaitsOne(x: TaskId, p: TaskId)
    requires (x == 1 && p == 0) || (x == 2 && p == 1)
    ensures Legible(RUN) && WaitsFor(RUN, TaskNode(x)) == [TaskNode(p)]
  {
    RunGood();
    hide Stops, OutcomeOf, Legible, WaitsFor, PendingNodes, ViewOk, Inv;
    LegibleWhole(RUN);
    WaitsAre(RUN, x);
    Reads(p);
    OnePending(V(RUN), OnTask(p));
  }

  lemma Roots()
    ensures |RUN.info| == |RUN.phase| && RootsOf(RUN) == [TaskNode(0), TaskNode(1), TaskNode(2)]
  {
    assert ParkedRoots(RUN.info, RUN.phase, 0) == [];
    assert ParkedRoots(RUN.info, RUN.phase, 1) == [TaskNode(0)];
    assert ParkedRoots(RUN.info, RUN.phase, 2) == [TaskNode(0), TaskNode(1)];
  }

  /** The search closes one cycle, and Task 2 is not on it. */
  lemma SearchFinds()
    ensures Legible(RUN) && |RUN.info| == |RUN.phase| == |RUN.state|
    ensures SearchOf(RUN).cycles == [[TaskNode(0), TaskNode(1), TaskNode(0)]]
  {
    hide Legible, WaitsFor, Search, ParkedRoots;
    var a, b, c := TaskNode(0), TaskNode(1), TaskNode(2);
    WaitsTwo();
    WaitsOne(1, 0);
    WaitsOne(2, 1);
    Roots();
    SearchIs(RUN);
    InAllNodes(RUN, a);
    InAllNodes(RUN, b);
    InAllNodes(RUN, c);
    LegibleAt(RUN, a);
    LegibleAt(RUN, b);
    LegibleAt(RUN, c);
    Searched(EdgesOf(RUN), AllNodes(RUN), a, b, c);
  }

  lemma InRing()
    ensures Ring(RUN, [0, 2, 1])
  {
    var ring := [0, 2, 1];
    assert RUN.named[0][1] == OnTask(2) && RUN.named[2][0] == OnTask(1) && RUN.named[1][0] == OnTask(0);
    forall i | 0 <= i < 3 ensures Linked(RUN, ring[i], NextIn(ring, i)) {
      assert i == 0 || i == 1 || i == 2;
    }
  }

  /** A ring is Blocked whole exactly when the search catches each of its Tasks. */
  lemma RingBlockedExactly(a: Sched, b: Sched, ring: seq<TaskId>)
    requires Whole(a) && Legible(a) && |a.info| == |a.phase| == |a.state| && Ring(a, ring) && BlockedExactly(a, b)
    ensures (forall i :: 0 <= i < |ring| ==> BlockedAt(b, ring[i])) <==> (forall i :: 0 <= i < |ring| ==> CaughtOnWay(a, ring[i]))
  {
    hide Static, Tree, Members, NamedOk, Memory, Tallies, Located, Edges, Led, QueueOk, Counts, RunState.Holds, Started,
        StartsPast, NoGate, GatesAlone, CaughtOnWay, Legible, BlockedAt;
    forall i | 0 <= i < |ring| ensures ring[i] < |a.state| && !IsTerminal(a.state[ring[i]]) {
      assert Linked(a, ring[i], NextIn(ring, i));
    }
  }

  /** Tasks 0, 2 and 1 are such a ring; once its cycles are blocked Tasks 0 and 1 are
      Blocked, and Task 2 is not. */
  lemma LeftOut(b: Sched)
    requires Legible(RUN) && |RUN.info| == |RUN.phase| == |RUN.state| && BlockedExactly(RUN, b)
    ensures Ring(RUN, [0, 2, 1]) && BlockedAt(b, 0) && BlockedAt(b, 1) && !BlockedAt(b, 2)
  {
    hide Legible, CaughtOnWay, SearchOf, Ring;
    InRing();
    SearchFinds();
    var cycles := SearchOf(RUN).cycles;
    CaughtExactly(RUN, cycles, 0);
    CaughtExactly(RUN, cycles, 1);
    CaughtExactly(RUN, cycles, 2);
    assert cycles[0][0] == TaskNode(0) && cycles[0][1] == TaskNode(1) && cycles[0][2] == TaskNode(0);
    assert RUN.state[0] == Pending && RUN.state[1] == Pending && RUN.state[2] == Pending;
  }
}
