/** What the waits-for graph's edges are, in the run's own terms, and what becomes
    of a ring of parked Tasks, each naming the next (cycle.go). */
module Rings {
  import opened Outcomes
  import opened CollectionTally
  import opened Topology
  import opened Eligibility
  import opened WaitLists
  import opened RunState
  import opened Failures
  import opened Cascades
  import opened Followers
  import opened Rest
  import opened Declaring
  import opened Waiting
  import opened DepthFirst
  import Cycles

  // ---- the edges ----------------------------------------------------------

  predicate On(p: Pred, n: Node) { (p.OnTask? && n == TaskNode(p.t)) || (p.OnCol? && n == ColNode(p.c)) }

  /** p may be read, and reads pending. */
  ghost predicate ReadsPending(s: Sched, p: Pred) {
    ViewOk(V(s)) && PredOk(p, |s.state|, |s.tally|) && OutcomeOf(V(s), p).0 == PredPending
  }

  ghost predicate WaitsOn(s: Sched, ps: seq<Pred>, n: Node) {
    exists p :: p in ps && On(p, n) && ReadsPending(s, p)
  }

  lemma {:induction false} PendingAre(s: Sched, ps: seq<Pred>, n: Node)
    requires ViewOk(V(s)) && PredsOk(ps, |s.state|, |s.tally|)
    ensures n in PendingNodes(V(s), ps) <==> WaitsOn(s, ps, n)
  {
    hide OutcomeOf, ViewOk, WaitsOn;
    WaitsOnCons(s, ps, n);
    if ps != [] {
      assert PredOk(ps[0], |s.state|, |s.tally|);
      PendingAre(s, ps[1..], n);
      MissingFails(V(s), ps[0]);
    }
  }

  lemma WaitsOnCons(s: Sched, ps: seq<Pred>, n: Node)
    ensures WaitsOn(s, ps, n) <==> ps != [] && ((On(ps[0], n) && ReadsPending(s, ps[0])) || WaitsOn(s, ps[1..], n))
  {
    hide ReadsPending;
    if ps != [] {
      assert ps == [ps[0]] + ps[1..];
      if WaitsOn(s, ps[1..], n) {
        var p :| p in ps[1..] && On(p, n) && ReadsPending(s, p);
        assert p in ps;
      }
      if On(ps[0], n) && ReadsPending(s, ps[0]) {
        assert ps[0] in ps;
      }
    }
  }

  lemma MissingFails(v: View, p: Pred)
    requires ViewOk(v) && PredOk(p, |v.state|, |v.tally|)
    ensures p.Missing? ==> OutcomeOf(v, p).0 == PredFailed
  {
  }

  lemma {:induction false} UnresolvedAre(state: seq<EntityState>, own: seq<TaskId>, n: Node)
    requires forall i :: 0 <= i < |own| ==> own[i] < |state|
    ensures n in UnresolvedTasks(state, own) <==>
      n.TaskNode? && n.t in own && n.t < |state| && state[n.t] in {Pending, Running, Empty, Incomplete}
  {
    if own != [] {
      assert own == [own[0]] + own[1..];
      OpenStates(state[own[0]]);
      UnresolvedAre(state, own[1..], n);
    }
  }

  lemma {:induction false} PendingChildrenAre(s: Sched, own: seq<nat>, n: Node)
    requires ViewOk(V(s)) && forall i :: 0 <= i < |own| ==> own[i] < |s.tally|
    ensures n in PendingChildren(V(s), own) <==> n.ColNode? && n.c in own && ReadsPending(s, OnCol(n.c, 0))
  {
    hide OutcomeOf, ViewOk;
    if own != [] {
      assert own == [own[0]] + own[1..];
      PendingChildrenAre(s, own[1..], n);
    }
  }

  /** A parked Task waits for what it ever named that reads pending, and no other Task
      for anything. */
  lemma TaskWaits(s: Sched, t: TaskId, n: Node)
    requires Whole(s) && t < |s.state|
    ensures Legible(s) && t < |s.phase| && t < |s.named|
    ensures n in EdgesOf(s)(TaskNode(t)) <==> s.phase[t] == PhaseParked && WaitsOn(s, s.named[t], n)
  {
    hide Inv, PendingNodes, PredsOk, ReadsPending, Legible, Forgets;
    LegibleWhole(s);
    Shaped(s, -1, -1, -1);
    ViewOfWhole(s, t);
    LegibleAt(s, TaskNode(t));
    if s.phase[t] == PhaseParked {
      PendingAre(s, s.preds[t], n);
      ForgottenNotPending(s, s.named[t], s.preds[t]);
    }
  }

  lemma LegibleAt(s: Sched, n: Node)
    requires Legible(s) && NodeIn(s, n)
    ensures EdgesOf(s).requires(n) && EdgesOf(s)(n) == WaitsFor(s, n)
    ensures ViewOk(V(s)) && |s.tally| == |s.cols|
  {
  }

  /** What was forgotten has succeeded, so it is waited for by nobody. */
  lemma ForgottenNotPending(s: Sched, full: seq<Pred>, kept: seq<Pred>)
    requires ViewOk(V(s)) && PredsOk(full, |s.state|, |s.tally|) && Forgets(full, kept, s.state)
    ensures forall n :: WaitsOn(s, full, n) <==> WaitsOn(s, kept, n)
  {
    hide Forgets;
    ForgetsSubset(full, kept, s.state);
    forall n | WaitsOn(s, full, n) ensures WaitsOn(s, kept, n) {
      var p :| p in full && On(p, n) && ReadsPending(s, p);
      assert !Satisfied(p, s.state);
    }
    forall n | WaitsOn(s, kept, n) ensures WaitsOn(s, full, n) {
      var p :| p in kept && On(p, n) && ReadsPending(s, p);
    }
  }

  /** A container with no Task below it waits for what it starts after. */
  lemma EmptyWaits(s: Sched, c: nat, n: Node)
    requires Whole(s) && c < |s.cols| && !Populated(s, c)
    ensures Legible(s) && c < |s.entry|
    ensures n in EdgesOf(s)(ColNode(c)) <==> WaitsOn(s, s.entry[c], n)
  {
    hide Inv, PendingNodes, ReadsPending, Legible, Populated;
    LegibleWhole(s);
    Shaped(s, -1, -1, -1);
    MembersMean(s, c);
    LegibleAt(s, ColNode(c));
    LegibleEntry(s, c);
    PendingAre(s, s.entry[c], n);
  }

  lemma LegibleEntry(s: Sched, c: nat)
    requires Legible(s) && c < |s.cols|
    ensures c < |s.entry| && PredsOk(s.entry[c], |s.state|, |s.tally|)
  {
  }

  /** A populated one waits for its own Tasks not yet resolved and for its own containers
      that read pending. */
  lemma PopulatedWaits(s: Sched, c: nat, n: Node)
    requires Whole(s) && c < |s.cols| && Populated(s, c)
    ensures Legible(s) && |s.info| == |s.state|
    ensures n in EdgesOf(s)(ColNode(c)) <==> match n
      case TaskNode(t) => t < |s.info| && s.info[t].home == c && s.state[t] in {Pending, Running, Empty, Incomplete}
      case ColNode(d) => d < |s.cols| && s.cols[d].parent == c && ReadsPending(s, OnCol(d, 0))
  {
    hide Inv, UnresolvedTasks, PendingChildren, ReadsPending, Legible, Populated;
    LegibleWhole(s);
    Shaped(s, -1, -1, -1);
    MembersMean(s, c);
    LegibleAt(s, ColNode(c));
    OwnAre(s, c);
    UnresolvedAre(s.state, s.colTasks[c], n);
    PendingChildrenAre(s, s.colChildren[c], n);
  }

  lemma OwnAre(s: Sched, c: nat)
    requires Whole(s) && Legible(s) && c < |s.cols|
    ensures c < |s.colTasks| && c < |s.colChildren|
    ensures forall t: nat :: t in s.colTasks[c] <==> t < |s.info| && s.info[t].home == c
    ensures forall d: nat :: d in s.colChildren[c] <==> d < |s.cols| && s.cols[d].parent == c
    ensures forall i :: 0 <= i < |s.colTasks[c]| ==> s.colTasks[c][i] < |s.state|
    ensures forall i :: 0 <= i < |s.colChildren[c]| ==> s.colChildren[c][i] < |s.tally|
  {
    hide Static, Members, Life, NamedOk, Memory, Tallies, Located, Edges, Led, QueueOk, Counts, Holds, Started,
        StartsPast, NoGate, GatesAlone;
    assert TasksAt(s.info, s.colTasks[c], c) && ChildrenAt(s.cols, s.colChildren[c], c);
  }

  // ---- what the search reports --------------------------------------------

  /** The search of the waits-for graph from every parked Task. */
  ghost function SearchOf(s: Sched): Trace<Node>
    requires Legible(s) && |s.info| == |s.phase| == |s.state|
  {
    WaitsGraph(s);
    RootsIn(s);
    Search(EdgesOf(s), AllNodes(s), RootsOf(s))
  }

  /** On the way by which the search first met some vertex, Task t stands at or after
      something that vertex waits for. */
  ghost predicate CaughtOnWay(s: Sched, t: TaskId)
    requires Legible(s) && |s.info| == |s.phase| == |s.state|
  {
    ClosedOver(EdgesOf(s), SearchOf(s).ways, TaskNode(t))
  }

  lemma CaughtExactly(s: Sched, cycles: seq<seq<Node>>, t: TaskId)
    requires Legible(s) && |s.info| == |s.phase| == |s.state| && cycles == SearchOf(s).cycles
    ensures CaughtBy(cycles, t) <==> CaughtOnWay(s, t)
  {
    hide Legible, WaitsFor, Search, ClosedOver, Graph, All;
    WaitsGraph(s);
    RootsIn(s);
    AllRoots(s);
    ReportedExactly(EdgesOf(s), AllNodes(s), RootsOf(s), TaskNode(t));
    if CaughtBy(cycles, t) {
      var k, i :| 0 <= k < |cycles| && 0 <= i < |cycles[k]| && cycles[k][i] == TaskNode(t);
      assert cycles[k] in cycles && TaskNode(t) in cycles[k];
    }
    if Reported(cycles, TaskNode(t)) {
      var c :| c in cycles && TaskNode(t) in c;
      var k :| 0 <= k < |cycles| && cycles[k] == c;
      var i :| 0 <= i < |c| && c[i] == TaskNode(t);
      assert cycles[k][i] == TaskNode(t);
    }
  }

  lemma AllRoots(s: Sched)
    requires |s.info| == |s.phase| == |s.state|
    ensures All(AllNodes(s), RootsOf(s))
  {
    RootsIn(s);
  }

  // ---- rings --------------------------------------------------------------

  function NextIn(ring: seq<TaskId>, i: nat): TaskId
    requires i < |ring|
  {
    ring[if i + 1 < |ring| then i + 1 else 0]
  }

  /** Every Task of ring is parked and names the next one. */
  ghost predicate Ring(s: Sched, ring: seq<TaskId>) {
    ring != [] && forall i :: 0 <= i < |ring| ==> Linked(s, ring[i], NextIn(ring, i))
  }

  ghost predicate Linked(s: Sched, x: TaskId, y: TaskId) {
    x < |s.phase| && s.phase[x] == PhaseParked && x < |s.named| && OnTask(y) in s.named[x]
  }

  /** None of them waits for anything else. */
  ghost predicate WaitsForNothingElse(s: Sched, ring: seq<TaskId>) {
    forall i, p :: 0 <= i < |ring| && ring[i] < |s.named| && p in s.named[ring[i]] && ReadsPending(s, p) ==> p == OnTask(NextIn(ring, i))
  }

  lemma LinkedEdge(s: Sched, x: TaskId, y: TaskId)
    requires Whole(s) && Linked(s, x, y) && y < |s.phase| && s.phase[y] == PhaseParked
    ensures Legible(s) && x < |s.state| && y < |s.state| && TaskNode(y) in EdgesOf(s)(TaskNode(x))
  {
    hide Legible, WaitsFor, Inv;
    LegibleWhole(s);
    Shaped(s, -1, -1, -1);
    TaskWaits(s, x, TaskNode(y));
    ParkedReads(s, y);
    assert On(OnTask(y), TaskNode(y));
  }

  lemma ParkedReads(s: Sched, y: TaskId)
    requires Whole(s) && y < |s.phase| && s.phase[y] == PhaseParked
    ensures ReadsPending(s, OnTask(y))
  {
    hide Static, Tree, Members, NamedOk, Memory, Tallies, Located, Edges, Led, QueueOk, Counts, Holds, Started,
        StartsPast, NoGate, GatesAlone, Legible;
    LegibleWhole(s);
    LegibleView(s);
    TerminalIffDecided(s.state[y]);
  }

  lemma LegibleView(s: Sched)
    requires Legible(s)
    ensures ViewOk(V(s))
  {
  }

  /** The ring as a walk. */
  ghost function RingWalk(ring: seq<TaskId>): (r: seq<Node>)
    requires ring != []
    ensures |r| == |ring| + 1 && (forall i :: 0 <= i < |ring| ==> r[i] == TaskNode(ring[i])) && r[|ring|] == TaskNode(ring[0])
    ensures forall i :: 0 <= i < |ring| ==> r[i + 1] == TaskNode(NextIn(ring, i))
  {
    seq(|ring|, i requires 0 <= i < |ring| => TaskNode(ring[i])) + [TaskNode(ring[0])]
  }

  lemma RingEdge(s: Sched, ring: seq<TaskId>, i: nat)
    requires Whole(s) && Ring(s, ring) && i < |ring|
    ensures Legible(s) && ring[i] < |s.state| && TaskNode(NextIn(ring, i)) in EdgesOf(s)(TaskNode(ring[i]))
  {
    hide Inv, Legible, WaitsFor, Linked;
    assert Linked(s, ring[i], NextIn(ring, i));
    var j := if i + 1 < |ring| then i + 1 else 0;
    assert Linked(s, ring[j], NextIn(ring, j));
    LinkParked(s, ring[j], NextIn(ring, j));
    LinkedEdge(s, ring[i], NextIn(ring, i));
  }

  lemma RingCloses(s: Sched, ring: seq<TaskId>)
    requires Whole(s) && Ring(s, ring)
    ensures ClosedWalk(EdgesOf(s), AllNodes(s), RingWalk(ring))
  {
    hide Inv, Legible, Ring, NextIn, AllNodes;
    RingNonempty(s, ring);
    LegibleWhole(s);
    WaitsGraph(s);
    var walk := RingWalk(ring);
    forall i | 0 <= i < |ring|
      ensures walk[i] in AllNodes(s) && EdgesOf(s).requires(walk[i]) && walk[i + 1] in EdgesOf(s)(walk[i])
    {
      hide WaitsFor;
      RingEdge(s, ring, i);
      InAllNodes(s, walk[i]);
    }
    assert walk[|ring|] == walk[0];
  }

  lemma LinkParked(s: Sched, x: TaskId, y: TaskId)
    requires Linked(s, x, y)
    ensures x < |s.phase| && s.phase[x] == PhaseParked
  {
  }

  lemma {:induction false} ParkedIsRoot(info: seq<TaskInfo>, phase: seq<Phase>, n: nat, t: TaskId)
    requires n <= |info| == |phase| && t < n && phase[t] == PhaseParked && info[t].gateFor < 0
    ensures TaskNode(t) in ParkedRoots(info, phase, n)
  {
    if t < n - 1 {
      ParkedIsRoot(info, phase, n - 1, t);
    }
  }

  lemma RingRoot(s: Sched, ring: seq<TaskId>)
    requires Whole(s) && Ring(s, ring)
    ensures |s.info| == |s.phase| && TaskNode(ring[0]) in RootsOf(s)
    ensures Reaches(EdgesOf(s), AllNodes(s), TaskNode(ring[0]), TaskNode(ring[0]))
  {
    hide Static, Tree, Members, Life, NamedOk, Memory, Tallies, Located, Edges, Led, QueueOk, Counts, Holds, Started,
        StartsPast, GatesAlone;
    var last := |ring| - 1;
    assert Linked(s, ring[last], NextIn(ring, last)) && NextIn(ring, last) == ring[0];
    assert Linked(s, ring[0], NextIn(ring, 0));
    ParkedIsRoot(s.info, s.phase, |s.info|, ring[0]);
    InAllNodes(s, TaskNode(ring[0]));
    var walk := [TaskNode(ring[0])];
    assert |walk| > 0 && Walk(EdgesOf(s), AllNodes(s), walk) && walk[0] == TaskNode(ring[0]) && walk[|walk| - 1] == TaskNode(ring[0]);
  }

  /** A ring shares an edge with a reported cycle: the two Tasks on it are caught. */
  lemma RingCaught(s: Sched, cycles: seq<seq<Node>>, ring: seq<TaskId>) returns (i: nat, k: nat)
    requires Whole(s) && Ring(s, ring) && |s.info| == |s.phase|
    requires Cycles.Complete(EdgesOf(s), AllNodes(s), RootsOf(s), cycles)
    ensures i < |ring| && k < |cycles| && Cycles.EndsWith(cycles[k], TaskNode(ring[i]), TaskNode(NextIn(ring, i)))
    ensures CaughtBy(cycles, ring[i]) && CaughtBy(cycles, NextIn(ring, i))
  {
    hide Inv, Ring, WaitsFor, Legible, Reaches, ClosedWalk;
    RingNonempty(s, ring);
    RingCloses(s, ring);
    RingRoot(s, ring);
    var walk := RingWalk(ring);
    assert Cycles.Meets(cycles, walk);
    i :| 0 <= i < |walk| - 1 && Cycles.BackEdge(cycles, walk[i], walk[i + 1]);
    k :| 0 <= k < |cycles| && Cycles.EndsWith(cycles[k], walk[i], walk[i + 1]);
    assert cycles[k][|cycles[k]| - 2] == TaskNode(ring[i]) && cycles[k][|cycles[k]| - 1] == TaskNode(NextIn(ring, i));
  }

  lemma RingNonempty(s: Sched, ring: seq<TaskId>)
    requires Ring(s, ring)
    ensures ring != []
  {
  }

  // ---- a ring that waits for nothing else ---------------------------------

  lemma OnlyNext(s: Sched, ring: seq<TaskId>, j: nat, n: Node)
    requires Whole(s) && Ring(s, ring) && WaitsForNothingElse(s, ring) && j < |ring|
    requires Legible(s) && ring[j] < |s.state| && n in EdgesOf(s)(TaskNode(ring[j]))
    ensures n == TaskNode(NextIn(ring, j))
  {
    hide Inv, Legible, WaitsFor, ReadsPending, Ring;
    TaskWaits(s, ring[j], n);
    var p :| p in s.named[ring[j]] && On(p, n) && ReadsPending(s, p);
  }

  /** Following a cycle from one Task of the ring is following the ring. */
  lemma {:induction false} CycleFollows(s: Sched, ring: seq<TaskId>, cycle: seq<Node>, j: nat)
    requires Whole(s) && Ring(s, ring) && WaitsForNothingElse(s, ring) && j < |ring|
    requires ClosedWalk(EdgesOf(s), AllNodes(s), cycle) && TaskNode(ring[j]) in cycle
    ensures TaskNode(NextIn(ring, j)) in cycle
  {
    hide Inv, Legible, WaitsFor, Ring, WaitsForNothingElse;
    LegibleWhole(s);
    var m :| 0 <= m < |cycle| && cycle[m] == TaskNode(ring[j]);
    var k := if m == |cycle| - 1 then 0 else m;
    InAllNodes(s, cycle[k]);
    OnlyNext(s, ring, j, cycle[k + 1]);
    assert cycle[k + 1] in cycle;
  }

  lemma AllAround(s: Sched, ring: seq<TaskId>, cycle: seq<Node>, i: nat)
    requires Whole(s) && Ring(s, ring) && WaitsForNothingElse(s, ring) && i < |ring|
    requires ClosedWalk(EdgesOf(s), AllNodes(s), cycle) && TaskNode(ring[i]) in cycle
    ensures forall j :: 0 <= j < |ring| ==> TaskNode(ring[j]) in cycle
  {
    hide Inv, Ring, WaitsForNothingElse, ClosedWalk, WaitsFor;
    Onwards(s, ring, cycle, i);
    CycleFollows(s, ring, cycle, |ring| - 1);
    Onwards(s, ring, cycle, 0);
  }

  lemma {:induction false} Onwards(s: Sched, ring: seq<TaskId>, cycle: seq<Node>, i: nat)
    requires Whole(s) && Ring(s, ring) && WaitsForNothingElse(s, ring) && i < |ring|
    requires ClosedWalk(EdgesOf(s), AllNodes(s), cycle) && TaskNode(ring[i]) in cycle
    ensures forall j :: i <= j < |ring| ==> TaskNode(ring[j]) in cycle
    decreases |ring| - i
  {
    hide Inv, Ring, WaitsForNothingElse, ClosedWalk, WaitsFor;
    if i + 1 < |ring| {
      CycleFollows(s, ring, cycle, i);
      Onwards(s, ring, cycle, i + 1);
    }
  }

  /** All of such a ring is on one reported cycle. */
  lemma LoneRingCaught(s: Sched, cycles: seq<seq<Node>>, ring: seq<TaskId>)
    requires Whole(s) && Ring(s, ring) && WaitsForNothingElse(s, ring) && |s.info| == |s.phase|
    requires Cycles.Complete(EdgesOf(s), AllNodes(s), RootsOf(s), cycles)
    requires Cycles.Sound(EdgesOf(s), AllNodes(s), RootsOf(s), cycles)
    ensures forall j :: 0 <= j < |ring| ==> CaughtBy(cycles, ring[j])
  {
    hide Inv, Ring, WaitsForNothingElse, ClosedWalk, WaitsFor, Cycles.Complete, Reaches, Legible;
    var i, k := RingCaught(s, cycles, ring);
    var cycle := cycles[k];
    assert ClosedWalk(EdgesOf(s), AllNodes(s), cycle);
    assert cycle[|cycle| - 2] == TaskNode(ring[i]);
    AllAround(s, ring, cycle, i);
    forall j | 0 <= j < |ring| ensures CaughtBy(cycles, ring[j]) {
      var m :| 0 <= m < |cycle| && cycle[m] == TaskNode(ring[j]);
      assert cycles[k][m] == TaskNode(ring[j]);
    }
  }

  // ---- what blocking does to them -----------------------------------------

  ghost predicate BlockedAt(s: Sched, t: TaskId) { t < |s.state| && s.state[t] == Blocked }

  /** From a to b, who was not resolved became Blocked exactly when caught. */
  ghost predicate BlockedExactly(a: Sched, b: Sched)
    requires Legible(a) && |a.info| == |a.phase| == |a.state|
  {
    forall t: nat :: t < |a.state| && !IsTerminal(a.state[t]) ==> (BlockedAt(b, t) <==> CaughtOnWay(a, t))
  }

  /** No ring survives: two Tasks of it, one naming the other, are Blocked. */
  ghost predicate RingsBroken(a: Sched, b: Sched) {
    forall ring :: Ring(a, ring) ==> exists i :: 0 <= i < |ring| && BlockedAt(b, ring[i]) && BlockedAt(b, NextIn(ring, i))
  }

  /** And all of them when they wait for nothing else. */
  ghost predicate LoneRingsBlocked(a: Sched, b: Sched) {
    forall ring :: Ring(a, ring) && WaitsForNothingElse(a, ring) ==> forall i :: 0 <= i < |ring| ==> BlockedAt(b, ring[i])
  }

  lemma BlocksExactly(a: Sched, b: Sched, cycles: seq<seq<Node>>)
    requires Legible(a) && |a.info| == |a.phase| == |a.state| && cycles == SearchOf(a).cycles
    requires Swept(a, b, Caught(cycles), Blocked) && forall t :: t in Caught(cycles) ==> t < |b.state| && b.state[t] == Blocked
    ensures BlockedExactly(a, b)
  {
    hide Legible, CaughtOnWay, CaughtBy, FailuresLast, TallyGrows, Doomed, SearchOf;
    forall t: nat | t < |a.state| && !IsTerminal(a.state[t]) ensures BlockedAt(b, t) <==> CaughtOnWay(a, t) {
      CaughtExactly(a, cycles, t);
      assert SweptTask(a, b, t, Caught(cycles), Blocked);
    }
  }

  lemma BreaksRings(a: Sched, b: Sched, cycles: seq<seq<Node>>)
    requires Whole(a) && |a.info| == |a.phase|
    requires Cycles.Complete(EdgesOf(a), AllNodes(a), RootsOf(a), cycles)
    requires Cycles.Sound(EdgesOf(a), AllNodes(a), RootsOf(a), cycles)
    requires forall t :: t in Caught(cycles) ==> t < |b.state| && b.state[t] == Blocked
    ensures RingsBroken(a, b) && LoneRingsBlocked(a, b)
  {
    hide Inv, Ring, WaitsForNothingElse, CaughtBy, Cycles.Complete, Cycles.Sound, WaitsFor, RootsOf, AllNodes, NextIn;
    assert forall t: nat :: CaughtBy(cycles, t) ==> t in Caught(cycles);
    forall ring | Ring(a, ring)
      ensures exists i :: 0 <= i < |ring| && BlockedAt(b, ring[i]) && BlockedAt(b, NextIn(ring, i))
    {
      var i, k := RingCaught(a, cycles, ring);
      assert BlockedAt(b, ring[i]) && BlockedAt(b, NextIn(ring, i));
    }
    forall ring | Ring(a, ring) && WaitsForNothingElse(a, ring) ensures forall i :: 0 <= i < |ring| ==> BlockedAt(b, ring[i]) {
      LoneRingCaught(a, cycles, ring);
    }
  }

  /** With nobody parked there is nothing to search from. */
  lemma NothingSearched(s: Sched)
    requires Legible(s) && |s.info| == |s.phase| == |s.state| && RootsOf(s) == []
    ensures SearchOf(s).cycles == [] && Cycles.Complete(EdgesOf(s), AllNodes(s), RootsOf(s), [])
  {
    hide Legible, WaitsFor, ParkedRoots;
  }

  lemma SearchIs(s: Sched)
    requires Legible(s) && |s.info| == |s.phase| == |s.state|
    ensures Graph(EdgesOf(s), AllNodes(s)) && All(AllNodes(s), RootsOf(s))
    ensures SearchOf(s) == Search(EdgesOf(s), AllNodes(s), RootsOf(s))
  {
    hide Legible, WaitsFor, Search;
    WaitsGraph(s);
    RootsIn(s);
  }
}
