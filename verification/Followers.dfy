/** A failed step stops the later steps of every Sequence it sits under
    (execution.go). Each Sequence remembers the earliest step it stopped after,
    so that a later failure finds nothing new to stop, here or further up. */
module Followers {
  import opened Outcomes
  import opened Topology
  import opened Eligibility
  import opened RunState

  /** The declaration of the step of container a that holds what was declared at
      branch into c. */
  function StepDecl(cols: seq<ColInfo>, c: int, branch: nat, a: int): nat
    decreases c
  {
    if c < 0 || c >= |cols| then 0
    else if c == a then branch
    else if cols[c].parent < c then StepDecl(cols, cols[c].parent, cols[c].decl, a)
    else 0
  }

  ghost function StepOf(s: Sched, x: nat, a: int): nat
    requires x < |s.info|
  {
    StepDecl(s.cols, s.info[x].home, s.info[x].decl, a)
  }

  /** x started or was resolved: nothing stops it any more. */
  predicate Halted(state: EntityState, phase: Phase) {
    IsTerminal(state) || phase == PhaseRunning
  }

  ghost predicate HaltedTask(s: Sched, x: nat) {
    x < |s.state| && x < |s.phase| && Halted(s.state[x], s.phase[x])
  }

  /** x sits in a step of Sequence a declared after step branch. */
  ghost predicate AfterStep(s: Sched, x: nat, a: nat, branch: nat) {
    && x < |s.info| && a < |s.cols| && s.cols[a].sequential
    && Below(s.info, s.cols, x, a)
    && StepOf(s, x, a) > branch
  }

  /** A memo-free walk of every Sequence above failed reaches x. */
  ghost predicate Follows(s: Sched, failed: nat, x: nat) {
    && failed < |s.info|
    && exists a: nat :: a < |s.cols| && Below(s.info, s.cols, failed, a) && AfterStep(s, x, a, StepOf(s, failed, a))
  }

  /** Every Task after the step Sequence a stopped at is halted. */
  ghost predicate StoppedAt(s: Sched, a: nat) {
    a < |s.cols| && a < |s.stoppedAfter| && s.stoppedAfter[a] != 0 ==>
      forall x :: AfterStep(s, x, a, s.stoppedAfter[a]) ==> HaltedTask(s, x)
  }

  /** A stopped Sequence's Sequence above stopped at or before the step it is in. */
  ghost predicate AboveStopped(s: Sched, c: nat, a: nat) {
    && c < |s.cols| && a < |s.cols| && |s.stoppedAfter| == |s.cols|
    && c != a && OnChain(s.cols, c, a) && s.cols[c].sequential && s.cols[a].sequential && s.stoppedAfter[c] != 0
    ==> 0 < s.stoppedAfter[a] <= StepDecl(s.cols, s.cols[c].parent, s.cols[c].decl, a)
  }

  ghost predicate Stops(s: Sched) {
    && (forall a: nat :: StoppedAt(s, a))
    && (forall c: nat, a: nat :: AboveStopped(s, c, a))
  }

  // ---- the tree -----------------------------------------------------------

  /** Above d, the step that holds what sits in d is the step that holds d. */
  lemma {:induction false} StepAbove(cols: seq<ColInfo>, c: int, branch: nat, d: int, a: int)
    requires OnChain(cols, c, d) && OnChain(cols, d, a) && a != d
    ensures StepDecl(cols, c, branch, a) == StepDecl(cols, cols[d].parent, cols[d].decl, a)
    decreases c
  {
    if c != d {
      ChainBounds(cols, c, d);
      ChainBounds(cols, d, a);
      StepAbove(cols, cols[c].parent, cols[c].decl, d, a);
    } else {
      ChainBounds(cols, c, a);
    }
  }

  /** What container a holds x in was declared at d: x itself, or the container of a's
      that x is in. */
  ghost predicate StepAt(s: Sched, x: nat, a: nat, d: nat) {
    && x < |s.info|
    && ((s.info[x].home == a && s.info[x].decl == d) || exists c: nat :: InStep(s, x, a, c) && s.cols[c].decl == d)
  }

  ghost predicate InStep(s: Sched, x: nat, a: nat, c: nat) {
    x < |s.info| && c < |s.cols| && OnChain(s.cols, s.info[x].home, c) && s.cols[c].parent == a
  }

  /** That is the step of a that holds x. */
  lemma StepIs(s: Sched, x: nat, a: nat, d: nat)
    requires ColsOk(s.cols) && TasksOk(s.info, s.cols) && x < |s.info| && a < |s.cols|
    ensures StepAt(s, x, a, d) <==> Below(s.info, s.cols, x, a) && d == StepOf(s, x, a)
  {
    hide OnChain, StepDecl, ColsOk, TasksOk;
    if s.info[x].home == a {
      StepOfOwn(s, x, a);
    }
    forall c: nat | InStep(s, x, a, c) ensures s.info[x].home != a && Below(s.info, s.cols, x, a) && StepOf(s, x, a) == s.cols[c].decl {
      NotItsOwn(s, x, a, c);
      StepOfChild(s, x, a, c);
    }
    if Below(s.info, s.cols, x, a) && s.info[x].home != a {
      var c := ChildOnChain(s.cols, s.info[x].home, a);
      InStepIs(s, x, a, c);
    }
  }

  lemma InStepIs(s: Sched, x: nat, a: nat, c: nat)
    requires x < |s.info| && c < |s.cols| && OnChain(s.cols, s.info[x].home, c) && s.cols[c].parent == a
    ensures InStep(s, x, a, c)
  {
  }

  lemma StepOfOwn(s: Sched, x: nat, a: nat)
    requires x < |s.info| && a < |s.cols| && s.info[x].home == a
    ensures Below(s.info, s.cols, x, a) && StepOf(s, x, a) == s.info[x].decl
  {
  }

  lemma NotItsOwn(s: Sched, x: nat, a: nat, c: nat)
    requires ColsOk(s.cols) && InStep(s, x, a, c) && a < |s.cols|
    ensures s.info[x].home != a
  {
    ChainBounds(s.cols, s.info[x].home, c);
  }

  lemma StepOfChild(s: Sched, x: nat, a: nat, c: nat)
    requires ColsOk(s.cols) && InStep(s, x, a, c) && a < |s.cols|
    ensures Below(s.info, s.cols, x, a) && StepOf(s, x, a) == s.cols[c].decl
  {
    assert OnChain(s.cols, a, a);
    assert OnChain(s.cols, c, a);
    ChainTransitive(s.cols, s.info[x].home, c, a);
    StepAbove(s.cols, s.info[x].home, s.info[x].decl, c, a);
  }

  /** Sequence a holds x in a step declared at i and y in one declared later, at j. */
  ghost predicate InLaterStep(s: Sched, x: nat, y: nat, a: nat, i: nat, j: nat) {
    a < |s.cols| && s.cols[a].sequential && StepAt(s, x, a, i) && StepAt(s, y, a, j) && i < j
  }

  /** x follows a failed Task exactly when some Sequence holds the failed one in one step
      and x in a step declared later. */
  lemma FollowsExactly(s: Sched, failed: nat, x: nat)
    requires ColsOk(s.cols) && TasksOk(s.info, s.cols)
    ensures Follows(s, failed, x) <==> exists a: nat, i: nat, j: nat :: InLaterStep(s, failed, x, a, i, j)
  {
    hide OnChain, StepDecl, StepAt, ColsOk, TasksOk;
    if Follows(s, failed, x) {
      var a: nat :| a < |s.cols| && Below(s.info, s.cols, failed, a) && AfterStep(s, x, a, StepOf(s, failed, a));
      StepIs(s, failed, a, StepOf(s, failed, a));
      StepIs(s, x, a, StepOf(s, x, a));
      assert InLaterStep(s, failed, x, a, StepOf(s, failed, a), StepOf(s, x, a));
    }
    if a: nat, i: nat, j: nat :| InLaterStep(s, failed, x, a, i, j) {
      StepAtIn(s, failed, a, i);
      StepAtIn(s, x, a, j);
      StepIs(s, failed, a, i);
      StepIs(s, x, a, j);
    }
  }

  lemma StepAtIn(s: Sched, x: nat, a: nat, d: nat)
    requires StepAt(s, x, a, d)
    ensures x < |s.info|
  {
  }

  /** The Tasks of c and of every container below it. */
  function Descendants(s: Sched, c: nat): seq<TaskId>
    decreases |s.cols| - c, 0, 0
  {
    if c >= |s.cols| || c >= |s.colTasks| || c >= |s.colChildren| then []
    else s.colTasks[c] + DescendantsOf(s, c, s.colChildren[c])
  }

  function DescendantsOf(s: Sched, c: nat, children: seq<nat>): seq<TaskId>
    requires c < |s.cols|
    decreases |s.cols| - c - 1, 1, |children|
  {
    if children == [] then []
    else (if c < children[0] then Descendants(s, children[0]) else []) + DescendantsOf(s, c, children[1..])
  }

  /** Between c and a container above it lies one child of the latter. */
  lemma {:induction false} ChildOnChain(cols: seq<ColInfo>, c: int, a: int) returns (d: int)
    requires OnChain(cols, c, a) && c != a
    ensures OnChain(cols, c, d) && 0 <= d < |cols| && cols[d].parent == a && a < d
    decreases c
  {
    if cols[c].parent == a {
      d := c;
    } else {
      d := ChildOnChain(cols, cols[c].parent, a);
    }
  }

  lemma OwnTasks(s: Sched, c: nat, x: nat)
    requires Tree(s.info, s.cols, s.colTasks, s.colChildren) && c < |s.cols|
    ensures x in s.colTasks[c] <==> x < |s.info| && s.info[x].home == c
  {
  }

  lemma ChildOf(s: Sched, c: nat, d: nat)
    requires ColsOk(s.cols) && Tree(s.info, s.cols, s.colTasks, s.colChildren) && c < |s.cols|
    ensures d in s.colChildren[c] <==> d < |s.cols| && s.cols[d].parent == c
    ensures d in s.colChildren[c] ==> c < d
  {
  }

  lemma {:induction false} DescendantsAreBelow(s: Sched, c: nat, x: nat)
    requires ColsOk(s.cols) && Tree(s.info, s.cols, s.colTasks, s.colChildren) && c < |s.cols|
    ensures x in Descendants(s, c) <==> Below(s.info, s.cols, x, c)
    decreases |s.cols| - c, 0, 0
  {
    OwnTasks(s, c, x);
    if x in s.colTasks[c] {
      assert OnChain(s.cols, c, c);
      assert x in Descendants(s, c);
    } else if x in DescendantsOf(s, c, s.colChildren[c]) {
      var d := InSomeChild(s, c, s.colChildren[c], x);
      DescendantsAreBelow(s, d, x);
      ChainTransitive(s.cols, s.info[x].home, d, c);
    } else if Below(s.info, s.cols, x, c) {
      var d := ChildOnChain(s.cols, s.info[x].home, c);
      DescendantsAreBelow(s, d, x);
      ChildIncluded(s, c, s.colChildren[c], d, x);
      assert false;
    }
  }

  lemma {:induction false} InSomeChild(s: Sched, c: nat, children: seq<nat>, x: nat) returns (d: nat)
    requires c < |s.cols| && x in DescendantsOf(s, c, children)
    ensures d in children && c < d && x in Descendants(s, d)
  {
    if c < children[0] && x in Descendants(s, children[0]) {
      d := children[0];
    } else {
      d := InSomeChild(s, c, children[1..], x);
    }
  }

  lemma {:induction false} ChildIncluded(s: Sched, c: nat, children: seq<nat>, d: nat, x: nat)
    requires c < |s.cols| && d in children && c < d && x in Descendants(s, d)
    ensures x in DescendantsOf(s, c, children)
  {
    if children[0] != d {
      ChildIncluded(s, c, children[1..], d, x);
    }
  }

  /** The members of c's later steps: its own later Tasks, and everything in its
      later containers. */
  lemma LaterMembers(s: Sched, c: nat, branch: nat, x: nat)
    requires ColsOk(s.cols) && Tree(s.info, s.cols, s.colTasks, s.colChildren) && c < |s.cols|
    requires AfterStep(s, x, c, branch)
    ensures (x in s.colTasks[c] && s.info[x].decl > branch)
         || exists d: nat :: d in s.colChildren[c] && d < |s.cols| && s.cols[d].decl > branch && x in Descendants(s, d)
  {
    if s.info[x].home != c {
      var d := ChildOnChain(s.cols, s.info[x].home, c);
      StepAbove(s.cols, s.info[x].home, s.info[x].decl, d, c);
      assert StepDecl(s.cols, c, s.cols[d].decl, c) == s.cols[d].decl;
      ChainSplit(s.cols, s.info[x].home, d, c);
      DescendantsAreBelow(s, d, x);
      assert d in s.colChildren[c];
    }
  }

  /** A member of one of c's containers is in the step that container is. */
  lemma ChildMembersStep(s: Sched, c: nat, d: nat, x: nat)
    requires ColsOk(s.cols) && Tree(s.info, s.cols, s.colTasks, s.colChildren)
    requires c < |s.cols| && d in s.colChildren[c] && x in Descendants(s, d)
    ensures d < |s.cols| && Below(s.info, s.cols, x, c) && StepOf(s, x, c) == s.cols[d].decl
  {
    ChildOf(s, c, d);
    DescendantsAreBelow(s, d, x);
    assert OnChain(s.cols, d, c) && d != c by {
      assert OnChain(s.cols, c, c);
    }
    ChainTransitive(s.cols, s.info[x].home, d, c);
    StepAbove(s.cols, s.info[x].home, s.info[x].decl, d, c);
    assert StepDecl(s.cols, c, s.cols[d].decl, c) == s.cols[d].decl;
  }

  // ---- what later steps keep ----------------------------------------------

  /** Halted Tasks stay halted, so stopped Sequences stay stopped. */
  ghost predicate HaltsKept(a: Sched, b: Sched) {
    && b.info == a.info && b.cols == a.cols && b.stoppedAfter == a.stoppedAfter
    && forall x :: HaltedTask(a, x) ==> HaltedTask(b, x)
  }

  lemma StopsKept(a: Sched, b: Sched)
    requires Stops(a) && HaltsKept(a, b)
    ensures Stops(b)
  {
    forall c: nat ensures StoppedAt(b, c) {
      assert StoppedAt(a, c);
      forall x | c < |b.stoppedAfter| && AfterStep(b, x, c, b.stoppedAfter[c]) && b.stoppedAfter[c] != 0 ensures HaltedTask(b, x) {
        assert AfterStep(a, x, c, a.stoppedAfter[c]);
      }
    }
    forall c: nat, d: nat ensures AboveStopped(b, c, d) {
      assert AboveStopped(a, c, d);
    }
  }

  // ---- the walk up from a failed Task -------------------------------------

  /** Sequences other than but have halted everything after their stop. */
  ghost predicate StoppedBut(s: Sched, but: int) {
    forall a: nat :: a != but ==> StoppedAt(s, a)
  }

  /** d is on failed's chain and the walk has passed it. */
  ghost predicate Passed(s: Sched, failed: nat, c: int, d: nat) {
    failed < |s.info| && d < |s.cols| && OnChain(s.cols, s.info[failed].home, d) && d > c
  }

  /** The walk up from failed has reached c: every Sequence it passed has stopped
      at or before failed's step, and nothing else is disturbed. */
  ghost predicate Walked(s: Sched, failed: nat, c: int) {
    && failed < |s.info| && |s.stoppedAfter| == |s.cols| && c < |s.cols|
    && (c >= 0 ==> OnChain(s.cols, s.info[failed].home, c))
    && (forall d: nat, a: nat :: !(Passed(s, failed, c, d) && OnChain(s.cols, c, a)) ==> AboveStopped(s, d, a))
    && (forall a: nat :: Passed(s, failed, c, a) && s.cols[a].sequential ==> 0 < s.stoppedAfter[a] <= StepOf(s, failed, a))
  }

  lemma WalkStarts(s: Sched, failed: nat)
    requires Stops(s) && failed < |s.info| && |s.stoppedAfter| == |s.cols|
    requires -1 <= s.info[failed].home < |s.cols|
    ensures Walked(s, failed, s.info[failed].home)
  {
    forall d: nat | OnChain(s.cols, s.info[failed].home, d) ensures d <= s.info[failed].home {
      ChainBounds(s.cols, s.info[failed].home, d);
    }
  }

  /** Once the walk is over, nobody after failed in any Sequence is left to stop. */
  lemma WalkEnds(s: Sched, failed: nat)
    requires Walked(s, failed, -1) && StoppedBut(s, -1)
    ensures Stops(s)
    ensures forall x :: Follows(s, failed, x) ==> HaltedTask(s, x)
  {
    forall d: nat, a: nat ensures AboveStopped(s, d, a) {
    }
    forall a: nat ensures StoppedAt(s, a) {}
    forall x | Follows(s, failed, x) ensures HaltedTask(s, x) {
      var a: nat :| a < |s.cols| && Below(s.info, s.cols, failed, a) && AfterStep(s, x, a, StepOf(s, failed, a));
      assert Passed(s, failed, -1, a);
      assert StoppedAt(s, a);
      assert AfterStep(s, x, a, s.stoppedAfter[a]);
    }
  }

  /** The memo: a Sequence already stopped at or before failed's step, and every
      Sequence above it, has nothing left to stop. Returning here is what the
      memo-free walk would come to. */
  lemma WalkCutShort(s: Sched, failed: nat, c: nat)
    requires Walked(s, failed, c) && StoppedBut(s, -1) && s.cols[c].sequential
    requires 0 < s.stoppedAfter[c] <= StepOf(s, failed, c)
    ensures Walked(s, failed, -1)
  {
    var home := s.info[failed].home;
    forall a: nat | a < |s.cols| && OnChain(s.cols, home, a) && s.cols[a].sequential ensures 0 < s.stoppedAfter[a] <= StepOf(s, failed, a) {
      if a > c {
        assert Passed(s, failed, c, a);
      } else if a < c {
        ChainSplit(s.cols, home, c, a);
        assert AboveStopped(s, c, a) by {
          assert !Passed(s, failed, c, c);
        }
        StepAbove(s.cols, home, s.info[failed].decl, c, a);
      }
    }
    forall d: nat, a: nat ensures AboveStopped(s, d, a) {
      if Passed(s, failed, c, d) && OnChain(s.cols, c, a) && c != a {
        ChainBounds(s.cols, c, a);
        ChainSplit(s.cols, home, d, a) by { ChainTransitive(s.cols, home, c, a); }
        StepAbove(s.cols, home, s.info[failed].decl, d, a);
        ChainTransitive(s.cols, home, c, a);
      } else if Passed(s, failed, c, d) && a == c {
        ChainSplit(s.cols, home, d, c);
        StepAbove(s.cols, home, s.info[failed].decl, d, c);
      }
    }
    forall a: nat | Passed(s, failed, -1, a) && s.cols[a].sequential ensures 0 < s.stoppedAfter[a] <= StepOf(s, failed, a) {}
  }

  lemma PassedNext(s: Sched, failed: nat, c: nat, d: nat)
    requires failed < |s.info| && c < |s.cols| && s.cols[c].parent < c && OnChain(s.cols, s.info[failed].home, c)
    ensures Passed(s, failed, s.cols[c].parent, d) <==> Passed(s, failed, c, d) || d == c
  {
    var home := s.info[failed].home;
    if OnChain(s.cols, home, d) && s.cols[c].parent < d < c {
      ChainSplit(s.cols, home, c, d);
      ChainBounds(s.cols, s.cols[c].parent, d);
      assert false;
    }
  }

  /** A Group is passed without stopping anything. */
  lemma WalkPastGroup(s: Sched, failed: nat, c: nat)
    requires Walked(s, failed, c) && !s.cols[c].sequential && -1 <= s.cols[c].parent < c
    ensures Walked(s, failed, s.cols[c].parent)
  {
    var p := s.cols[c].parent;
    forall d: nat ensures Passed(s, failed, p, d) <==> Passed(s, failed, c, d) || d == c {
      PassedNext(s, failed, c, d);
    }
    if p >= 0 {
      ChainTransitive(s.cols, s.info[failed].home, c, p) by { assert OnChain(s.cols, p, p); }
    }
    forall d, a: nat | !(Passed(s, failed, p, d) && OnChain(s.cols, p, a)) ensures AboveStopped(s, d, a) {
    }
  }

  /** A Sequence not stopped that early stops here. */
  lemma WalkStops(s: Sched, failed: nat, c: nat)
    requires Walked(s, failed, c) && StoppedBut(s, -1) && s.cols[c].sequential && -1 <= s.cols[c].parent < c
    requires s.stoppedAfter[c] == 0 || StepOf(s, failed, c) < s.stoppedAfter[c]
    requires StepOf(s, failed, c) > 0
    ensures var r := s.(stoppedAfter := s.stoppedAfter[c := StepOf(s, failed, c)]);
      Walked(r, failed, r.cols[c].parent) && StoppedBut(r, c)
  {
    var branch := StepOf(s, failed, c);
    var r := s.(stoppedAfter := s.stoppedAfter[c := branch]);
    var p, home := s.cols[c].parent, s.info[failed].home;
    forall d: nat ensures Passed(r, failed, p, d) <==> Passed(s, failed, c, d) || d == c {
      PassedNext(s, failed, c, d);
    }
    if p >= 0 {
      ChainTransitive(s.cols, home, c, p) by { assert OnChain(s.cols, p, p); }
    }
    forall d: nat, a: nat | !(Passed(r, failed, p, d) && OnChain(r.cols, p, a)) ensures AboveStopped(r, d, a) {
      if a == c {
        AboveStoppedHere(s, failed, c, d);
      } else {
        assert OnChain(s.cols, c, a) == OnChain(s.cols, p, a);
        if d != c {
          assert AboveStopped(s, d, a);
        }
      }
    }
    forall a: nat | a != c ensures StoppedAt(r, a) {
      assert StoppedAt(s, a);
      forall x | a < |r.stoppedAfter| && AfterStep(r, x, a, r.stoppedAfter[a]) ensures AfterStep(s, x, a, s.stoppedAfter[a]) {}
    }
  }

  lemma AboveStoppedHere(s: Sched, failed: nat, c: nat, d: nat)
    requires Walked(s, failed, c) && s.cols[c].sequential
    requires s.stoppedAfter[c] == 0 || StepOf(s, failed, c) < s.stoppedAfter[c]
    requires StepOf(s, failed, c) > 0
    ensures AboveStopped(s.(stoppedAfter := s.stoppedAfter[c := StepOf(s, failed, c)]), d, c)
  {
    var home := s.info[failed].home;
    if d < |s.cols| && d != c && OnChain(s.cols, d, c) && s.cols[d].sequential && s.stoppedAfter[d] != 0 {
      if Passed(s, failed, c, d) {
        ChainSplit(s.cols, home, d, c);
        StepAbove(s.cols, home, s.info[failed].decl, d, c);
      } else {
        assert AboveStopped(s, d, c);
      }
    }
  }

  /** The walk reads nothing but the tree and the stops. */
  lemma WalkedKept(a: Sched, b: Sched, failed: nat, c: int)
    requires Walked(a, failed, c)
    requires b.info == a.info && b.cols == a.cols && b.stoppedAfter == a.stoppedAfter
    ensures Walked(b, failed, c)
  {
    forall d: nat, e: nat | !(Passed(b, failed, c, d) && OnChain(b.cols, c, e)) ensures AboveStopped(b, d, e) {
      assert Passed(b, failed, c, d) == Passed(a, failed, c, d);
      assert AboveStopped(a, d, e);
    }
    forall e: nat | Passed(b, failed, c, e) && b.cols[e].sequential ensures 0 < b.stoppedAfter[e] <= StepOf(b, failed, e) {
      assert Passed(a, failed, c, e);
    }
  }

  lemma StoppedKept(a: Sched, b: Sched, but: int)
    requires StoppedBut(a, but) && HaltsKept(a, b)
    ensures StoppedBut(b, but)
  {
    forall c: nat | c != but ensures StoppedAt(b, c) {
      assert StoppedAt(a, c);
      forall x | c < |b.stoppedAfter| && AfterStep(b, x, c, b.stoppedAfter[c]) && b.stoppedAfter[c] != 0 ensures HaltedTask(b, x) {
        assert AfterStep(a, x, c, a.stoppedAfter[c]);
      }
    }
  }

  /** Once its followers are halted, the Sequence that just stopped is stopped. */
  lemma StoppedHere(s: Sched, c: nat)
    requires StoppedBut(s, c) && c < |s.stoppedAfter|
    requires forall x :: AfterStep(s, x, c, s.stoppedAfter[c]) ==> HaltedTask(s, x)
    ensures StoppedBut(s, -1)
  {
    forall a: nat ensures StoppedAt(s, a) {
    }
  }

  lemma {:induction false} StepPositive(s: Sched, c: int, branch: nat, a: int)
    requires ColsOk(s.cols) && branch > 0 && OnChain(s.cols, c, a)
    ensures StepDecl(s.cols, c, branch, a) > 0
    decreases c
  {
    if c != a {
      StepPositive(s, s.cols[c].parent, s.cols[c].decl, a);
    }
  }

  /** The walk's branch, one container up. */
  lemma NextStep(s: Sched, failed: nat, c: nat)
    requires ColsOk(s.cols) && failed < |s.info| && c < |s.cols| && s.cols[c].parent >= 0
    requires OnChain(s.cols, s.info[failed].home, c)
    ensures OnChain(s.cols, s.info[failed].home, s.cols[c].parent)
    ensures StepOf(s, failed, s.cols[c].parent) == s.cols[c].decl
  {
    var p := s.cols[c].parent;
    assert OnChain(s.cols, p, p);
    ChainTransitive(s.cols, s.info[failed].home, c, p);
    StepAbove(s.cols, s.info[failed].home, s.info[failed].decl, c, p);
    assert StepDecl(s.cols, p, s.cols[c].decl, p) == s.cols[c].decl;
  }
}
