/** The run's waits-for graph (cycle.go): a parked Task waits for its pending
    predecessors, and a collection for its unresolved members. */
module Waiting {
  import opened Outcomes
  import opened CollectionTally
  import opened Topology
  import opened Eligibility
  import opened WaitLists
  import opened RunState
  import opened Failures
  import opened Cascades
  import opened Followers
  import opened Rest
  import Cycles
  import DepthFirst

  function NodeOf(p: Pred): Node
    requires !p.Missing?
  {
    if p.OnTask? then TaskNode(p.t) else ColNode(p.c)
  }

  /** The predecessors still pending, in order. */
  function PendingNodes(v: View, ps: seq<Pred>): seq<Node>
    requires ViewOk(v) && PredsOk(ps, |v.state|, |v.tally|)
  {
    if ps == [] then []
    else (if OutcomeOf(v, ps[0]).0 == PredPending then [NodeOf(ps[0])] else []) + PendingNodes(v, ps[1..])
  }

  function UnresolvedTasks(state: seq<EntityState>, own: seq<TaskId>): seq<Node>
    requires forall i :: 0 <= i < |own| ==> own[i] < |state|
  {
    if own == [] then []
    else (if IsTerminal(state[own[0]]) then [] else [TaskNode(own[0])]) + UnresolvedTasks(state, own[1..])
  }

  function PendingChildren(v: View, own: seq<nat>): seq<Node>
    requires ViewOk(v) && forall i :: 0 <= i < |own| ==> own[i] < |v.tally|
  {
    if own == [] then []
    else (if OutcomeOf(v, OnCol(own[0], 0)).0 == PredPending then [ColNode(own[0])] else []) + PendingChildren(v, own[1..])
  }

  /** Everything the graph reads is there to be read. */
  ghost predicate Legible(s: Sched) {
    && ViewOk(V(s)) && |s.preds| == |s.state| && |s.tally| == |s.cols|
    && |s.entry| == |s.colTasks| == |s.colChildren| == |s.cols|
    && EachPredsOk(s.preds, |s.state|, |s.tally|) && EachPredsOk(s.entry, |s.state|, |s.tally|)
    && (forall c {:trigger s.colTasks[c]} :: 0 <= c < |s.cols| ==> forall i :: 0 <= i < |s.colTasks[c]| ==> s.colTasks[c][i] < |s.state|)
    && (forall c {:trigger s.colChildren[c]} :: 0 <= c < |s.cols| ==> forall i :: 0 <= i < |s.colChildren[c]| ==> s.colChildren[c][i] < |s.cols|)
  }

  ghost predicate NodeIn(s: Sched, n: Node) {
    match n
    case TaskNode(t) => t < |s.state|
    case ColNode(c) => c < |s.cols|
  }

  ghost function AllNodes(s: Sched): set<Node> {
    (set t | 0 <= t < |s.state| :: TaskNode(t)) + (set c | 0 <= c < |s.cols| :: ColNode(c))
  }

  /** What n is still waiting for. */
  function WaitsFor(s: Sched, n: Node): seq<Node>
    requires Legible(s) && NodeIn(s, n)
  {
    match n
    case TaskNode(t) => if s.phase[t] != PhaseParked then [] else PendingNodes(V(s), s.preds[t])
    case ColNode(c) =>
      if |s.tally[c].members| == 0 then PendingNodes(V(s), s.entry[c])
      else UnresolvedTasks(s.state, s.colTasks[c]) + PendingChildren(V(s), s.colChildren[c])
  }

  function EdgesOf(s: Sched): Node --> seq<Node> {
    (n: Node) requires Legible(s) && NodeIn(s, n) => WaitsFor(s, n)
  }

  lemma LegibleWhole(s: Sched)
    requires Whole(s)
    ensures Legible(s)
  {
    hide Life, NamedOk, Tallies, Located, Edges, Led, QueueOk, Counts, Holds, Started, StartsPast,
        NoGate, GatesAlone, Memory, Members;
    LegiblePreds(s);
    LegibleEntries(s.entry, |s.info|, |s.cols|);
    LegibleTree(s);
  }

  lemma LegiblePreds(s: Sched)
    requires Whole(s)
    ensures EachPredsOk(s.preds, |s.state|, |s.tally|)
  {
    hide Inv;
    forall x | 0 <= x < |s.preds| ensures PredsOk(s.preds[x], |s.state|, |s.tally|) {
      ViewOfWhole(s, x);
    }
  }

  lemma LegibleEntries(entry: seq<seq<Pred>>, tasks: nat, cols: nat)
    requires EntriesOk(entry, tasks) && |entry| == cols
    ensures EachPredsOk(entry, tasks, cols)
  {
    forall c | 0 <= c < |entry| ensures PredsOk(entry[c], tasks, cols) {
      assert PredsOk(entry[c], tasks, c);
    }
  }

  lemma LegibleTree(s: Sched)
    requires Shape(s) && Tree(s.info, s.cols, s.colTasks, s.colChildren)
    ensures forall c {:trigger s.colTasks[c]} :: 0 <= c < |s.cols| ==> forall i :: 0 <= i < |s.colTasks[c]| ==> s.colTasks[c][i] < |s.state|
    ensures forall c {:trigger s.colChildren[c]} :: 0 <= c < |s.cols| ==> forall i :: 0 <= i < |s.colChildren[c]| ==> s.colChildren[c][i] < |s.cols|
  {
    forall c: nat, i: nat | c < |s.cols| && i < |s.colTasks[c]| ensures s.colTasks[c][i] < |s.state| {
      assert TasksAt(s.info, s.colTasks[c], c) && s.colTasks[c][i] in s.colTasks[c];
    }
    forall c: nat, i: nat | c < |s.cols| && i < |s.colChildren[c]| ensures s.colChildren[c][i] < |s.cols| {
      assert ChildrenAt(s.cols, s.colChildren[c], c) && s.colChildren[c][i] in s.colChildren[c];
    }
  }

  // ---- the graph stays within the run -------------------------------------

  lemma {:induction false} PendingIn(s: Sched, ps: seq<Pred>, i: nat)
    requires ViewOk(V(s)) && |s.tally| == |s.cols| && PredsOk(ps, |s.state|, |s.tally|) && i < |PendingNodes(V(s), ps)|
    ensures NodeIn(s, PendingNodes(V(s), ps)[i])
  {
    assert PredOk(ps[0], |s.state|, |s.tally|);
    var head := OutcomeOf(V(s), ps[0]).0 == PredPending;
    if !head || i > 0 {
      PendingIn(s, ps[1..], if head then i - 1 else i);
    }
  }

  lemma {:induction false} UnresolvedIn(state: seq<EntityState>, own: seq<TaskId>, i: nat)
    requires forall k :: 0 <= k < |own| ==> own[k] < |state|
    requires i < |UnresolvedTasks(state, own)|
    ensures UnresolvedTasks(state, own)[i].TaskNode? && UnresolvedTasks(state, own)[i].t < |state|
  {
    var head := !IsTerminal(state[own[0]]);
    if !head || i > 0 {
      UnresolvedIn(state, own[1..], if head then i - 1 else i);
    }
  }

  lemma {:induction false} ChildrenIn(v: View, own: seq<nat>, i: nat)
    requires ViewOk(v) && forall k :: 0 <= k < |own| ==> own[k] < |v.tally|
    requires i < |PendingChildren(v, own)|
    ensures PendingChildren(v, own)[i].ColNode? && PendingChildren(v, own)[i].c < |v.tally|
  {
    var head := OutcomeOf(v, OnCol(own[0], 0)).0 == PredPending;
    if !head || i > 0 {
      ChildrenIn(v, own[1..], if head then i - 1 else i);
    }
  }

  lemma WaitsStayIn(s: Sched, n: Node, i: nat)
    requires Legible(s) && NodeIn(s, n) && i < |WaitsFor(s, n)|
    ensures NodeIn(s, WaitsFor(s, n)[i])
  {
    match n
    case TaskNode(t) =>
      assert PredsOk(s.preds[t], |s.state|, |s.tally|);
      PendingIn(s, s.preds[t], i);
    case ColNode(c) =>
      if |s.tally[c].members| == 0 {
        assert PredsOk(s.entry[c], |s.state|, |s.tally|);
        PendingIn(s, s.entry[c], i);
      } else {
        var k := |UnresolvedTasks(s.state, s.colTasks[c])|;
        if i < k {
          UnresolvedIn(s.state, s.colTasks[c], i);
        } else {
          ChildrenIn(V(s), s.colChildren[c], i - k);
        }
      }
  }

  lemma InAllNodes(s: Sched, n: Node)
    ensures n in AllNodes(s) <==> NodeIn(s, n)
  {
  }

  lemma WaitsGraph(s: Sched)
    requires Legible(s)
    ensures DepthFirst.Graph(EdgesOf(s), AllNodes(s))
  {
    forall n | n in AllNodes(s)
      ensures EdgesOf(s).requires(n) && forall i :: 0 <= i < |EdgesOf(s)(n)| ==> EdgesOf(s)(n)[i] in AllNodes(s)
    {
      InAllNodes(s, n);
      forall i | 0 <= i < |WaitsFor(s, n)| ensures WaitsFor(s, n)[i] in AllNodes(s) {
        WaitsStayIn(s, n, i);
        InAllNodes(s, WaitsFor(s, n)[i]);
      }
    }
  }

  // ---- cycles -------------------------------------------------------------

  /** Every Task caught in a cycle is parked: nothing else has anything to wait for. */
  lemma CycleTasksParked(s: Sched, cycle: seq<Node>, i: nat)
    requires Legible(s) && DepthFirst.ClosedWalk(EdgesOf(s), AllNodes(s), cycle) && i < |cycle| && cycle[i].TaskNode?
    ensures cycle[i].t < |s.state| && s.phase[cycle[i].t] == PhaseParked
  {
    InAllNodes(s, cycle[i]);
    var k := if i == |cycle| - 1 then 0 else i;
    assert cycle[k] == cycle[i] && cycle[k + 1] in WaitsFor(s, cycle[k]);
  }

  /** The parked Tasks, which the walk starts from. Builders' gates are not among
      them. */
  function ParkedRoots(info: seq<TaskInfo>, phase: seq<Phase>, n: nat): (r: seq<Node>)
    requires n <= |info| == |phase|
    ensures forall i :: 0 <= i < |r| ==> r[i].TaskNode? && r[i].t < n && phase[r[i].t] == PhaseParked
  {
    if n == 0 then []
    else ParkedRoots(info, phase, n - 1)
         + if phase[n - 1] == PhaseParked && info[n - 1].gateFor < 0 then [TaskNode(n - 1)] else []
  }

  lemma RootsIn(s: Sched)
    requires |s.info| == |s.phase| == |s.state|
    ensures forall i :: 0 <= i < |ParkedRoots(s.info, s.phase, |s.info|)| ==> ParkedRoots(s.info, s.phase, |s.info|)[i] in AllNodes(s)
  {
    forall i | 0 <= i < |ParkedRoots(s.info, s.phase, |s.info|)| ensures ParkedRoots(s.info, s.phase, |s.info|)[i] in AllNodes(s) {
      InAllNodes(s, ParkedRoots(s.info, s.phase, |s.info|)[i]);
    }
  }

  lemma {:induction false} SomeCounted(phase: seq<Phase>, x: nat, p: Phase)
    requires x < |phase| && phase[x] == p
    ensures CountPhase(phase, p) > 0
  {
    if x > 0 {
      SomeCounted(phase[1..], x - 1, p);
    }
  }

  /** With nobody parked there is nothing to walk from. */
  lemma NoRoots(s: Sched)
    requires Whole(s) && s.parked == 0
    ensures |s.info| == |s.phase| && ParkedRoots(s.info, s.phase, |s.info|) == []
  {
    hide Static, Tree, Members, Life, NamedOk, Memory, Tallies, Located, Edges, Led, QueueOk, Holds, Started,
        StartsPast, NoGate, GatesAlone;
    var roots := ParkedRoots(s.info, s.phase, |s.info|);
    if roots != [] {
      SomeCounted(s.phase, roots[0].t, PhaseParked);
    }
  }

  // ---- blocking what is caught --------------------------------------------

  function RootsOf(s: Sched): seq<Node>
    requires |s.info| == |s.phase|
  {
    ParkedRoots(s.info, s.phase, |s.info|)
  }

  lemma RootsAre(s: Sched)
    requires |s.info| == |s.phase|
    ensures RootsOf(s) == ParkedRoots(s.info, s.phase, |s.info|)
  {
  }

  ghost predicate CaughtBy(cycles: seq<seq<Node>>, t: nat) {
    exists k, i :: 0 <= k < |cycles| && 0 <= i < |cycles[k]| && cycles[k][i] == TaskNode(t)
  }

  /** The Tasks on a reported cycle. */
  ghost function Caught(cycles: seq<seq<Node>>): iset<nat> {
    iset t: nat | CaughtBy(cycles, t)
  }

  /** While wakes are held, a Task is as it was or is Blocked. */
  ghost predicate BlockedOnly(a: Sched, b: Sched) {
    && |b.state| == |a.state| == |a.phase| == |b.phase|
    && forall t :: 0 <= t < |b.state| ==> b.state[t] == Blocked || (b.state[t] == a.state[t] && b.phase[t] == a.phase[t])
  }

  /** The Tasks of the first k cycles, and of the next one's first i vertices, are
      Blocked. */
  ghost predicate AllCaught(s: Sched, cycles: seq<seq<Node>>, k: nat, i: nat) {
    forall a, b :: 0 <= a < |cycles| && 0 <= b < |cycles[a]| && (a < k || (a == k && b < i)) && cycles[a][b].TaskNode? ==>
      cycles[a][b].t < |s.state| && s.state[cycles[a][b].t] == Blocked
  }

  lemma NothingCaught(s: Sched)
    requires Good(s) && |s.info| == |s.phase| && RootsOf(s) == []
    ensures Caught([]) == iset{} && Swept(s, s, Caught([]), Blocked) && Advances(s, s)
    ensures !DepthFirst.CycleReachable(EdgesOf(s), AllNodes(s), RootsOf(s))
    ensures Cycles.Sound(EdgesOf(s), AllNodes(s), RootsOf(s), [])
  {
    hide Inv, Stops;
    Shaped(s, -1, -1, -1);
    LifeOf(s);
    CascadeNone(s, -1);
    CascadeAdvances(s, s);
    SweepNone(s, Caught([]), Blocked);
  }

  lemma WakesHeld(s: Sched, batch: iset<nat>)
    requires Good(s)
    ensures var r := s.(waking := true);
      Whole(r) && InHands(r) == {} && Swept(r, r, batch, Blocked) && BlockedOnly(r, r)
    ensures forall cycles :: AllCaught(s.(waking := true), cycles, 0, 0)
  {
    hide Stops;
    WakingFrame(s, true);
    LifeOf(s);
    SweepNone(s.(waking := true), batch, Blocked);
  }

  lemma CaughtIn(s0: Sched, s1: Sched, s: Sched, cycles: seq<seq<Node>>, k: nat, i: nat)
    requires Legible(s0) && s1 == s0.(waking := true) && Whole(s) && Whole(s0) && BlockedOnly(s1, s)
    requires |s0.info| == |s0.phase| && Cycles.Sound(EdgesOf(s0), AllNodes(s0), RootsOf(s0), cycles)
    requires k < |cycles| && i < |cycles[k]|
    ensures cycles[k][i].TaskNode? ==>
      var t := cycles[k][i].t;
      && t < |s.phase| && t < |s.state| && t in Caught(cycles)
      && (s.state[t] == Blocked || (s.phase[t] == PhaseParked && !IsTerminal(s.state[t])))
  {
    hide Static, Tree, Members, NamedOk, Memory, Tallies, Located, Edges, Led, QueueOk, Counts, Holds, Started,
        StartsPast, NoGate, GatesAlone, Legible;
    if cycles[k][i].TaskNode? {
      CycleTasksParked(s0, cycles[k], i);
      assert CaughtBy(cycles, cycles[k][i].t);
    }
  }

  lemma SettledBlocked(s1: Sched, s: Sched, t: Sched, cycles: seq<seq<Node>>, k: nat, i: nat)
    requires Whole(s1) && BlockedOnly(s1, s) && Swept(s1, s, Caught(cycles), Blocked)
    requires k < |cycles| && i < |cycles[k]| && cycles[k][i].TaskNode?
    requires var x := cycles[k][i].t;
      && x < |s.state| && x < |s.phase| && x in Caught(cycles) && s.phase[x] == PhaseParked && !IsTerminal(s.state[x])
      && Cascaded(s, t, x) && t.state == s.state[x := Blocked] && t.phase == s.phase[x := PhaseAbandoned]
    requires Whole(s) && FailuresLast(s, t)
    ensures BlockedOnly(s1, t) && Swept(s1, t, Caught(cycles), Blocked)
    ensures forall a, b :: AllCaught(s, cycles, a, b) ==> AllCaught(t, cycles, a, b)
    ensures t.state[cycles[k][i].t] == Blocked
  {
    hide Inv, Caught, Cascaded, Swept;
    LifeOf(s1);
    SweptBySettle(s, t, cycles[k][i].t, Caught(cycles), Blocked);
    SweepTwice(s1, s, t, Caught(cycles), Blocked);
  }

  lemma CaughtOn(s1: Sched, s: Sched, t: Sched, cycles: seq<seq<Node>>, k: nat, i: nat)
    requires k < |cycles| && i < |cycles[k]| && AllCaught(t, cycles, k, i)
    requires cycles[k][i].TaskNode? ==> cycles[k][i].t < |t.state| && t.state[cycles[k][i].t] == Blocked
    ensures AllCaught(t, cycles, k, i + 1)
  {
  }

  lemma CaughtRow(s: Sched, cycles: seq<seq<Node>>, k: nat)
    requires k < |cycles| && AllCaught(s, cycles, k, |cycles[k]|)
    ensures AllCaught(s, cycles, k + 1, 0)
  {
  }

  /** Once the wakes run, what is Blocked stays Blocked. */
  lemma CaughtDrained(s0: Sched, s1: Sched, s: Sched, t: Sched, cycles: seq<seq<Node>>)
    requires Good(s0) && s1 == s0.(waking := true) && Whole(s1) && Whole(s) && Whole(t)
    requires Swept(s1, s, Caught(cycles), Blocked) && AllCaught(s, cycles, |cycles|, 0)
    requires Cascaded(s, t, -1) && InHands(t) == {} && !t.waking && t.woken == []
    ensures Good(t) && Advances(s0, t) && t.inflight == s0.inflight && Swept(s0, t, Caught(cycles), Blocked)
    ensures forall x :: x in Caught(cycles) ==> x < |t.state| && t.state[x] == Blocked
  {
    hide Inv, Stops, Advances;
    LifeOf(s1);
    LifeOf(s);
    SweptByCascade(s, t, Caught(cycles), Blocked);
    SweepTwice(s1, s, t, Caught(cycles), Blocked);
    assert Swept(s0, t, Caught(cycles), Blocked) by {
      forall x | 0 <= x < |s0.state| ensures SweptTask(s0, t, x, Caught(cycles), Blocked) {
        assert SweptTask(s1, t, x, Caught(cycles), Blocked);
      }
    }
    GoodAfterSweep(s0, t, Caught(cycles), Blocked);
    LifeOf(s0);
    SweptAdvances(s0, t, Caught(cycles), Blocked);
    forall x | x in Caught(cycles) ensures x < |t.state| && t.state[x] == Blocked {
      var k, i :| 0 <= k < |cycles| && 0 <= i < |cycles[k]| && cycles[k][i] == TaskNode(x);
      assert s.state[x] == Blocked && CascadedTask(s, t, x);
    }
  }
}
