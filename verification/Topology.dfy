/** The declaration tree: Tasks and nested Groups and Sequences, each declared
    into a container that was declared before it (declare.go, task_state.go). */
module Topology {
  import opened Outcomes

  /** A Task sits in the container home, or at the root (-1). A container
      builder's gate sits nowhere and has gateFor set instead. */
  datatype TaskInfo = TaskInfo(home: int, decl: nat, gateFor: int)

  datatype ColInfo = ColInfo(parent: int, decl: nat, sequential: bool)

  /** A vertex of a graph over the run: a Task or a container. */
  datatype Node = TaskNode(t: TaskId) | ColNode(c: nat)

  ghost predicate ColsOk(cols: seq<ColInfo>) {
    forall c {:trigger cols[c]} :: 0 <= c < |cols| ==>
      && -1 <= cols[c].parent < c
      && 0 < cols[c].decl
      && (cols[c].parent >= 0 ==> cols[cols[c].parent].decl < cols[c].decl)
  }

  ghost predicate TasksOk(info: seq<TaskInfo>, cols: seq<ColInfo>) {
    && (forall s {:trigger info[s]} :: 0 <= s < |info| ==>
      && -1 <= info[s].home < |cols|
      && -1 <= info[s].gateFor < |cols|
      && (info[s].gateFor >= 0 ==> info[s].home == -1)
      && 0 < info[s].decl
      && (info[s].home >= 0 ==> cols[info[s].home].decl < info[s].decl))
    && (forall s, u :: 0 <= s < u < |info| ==> info[s].decl < info[u].decl)
  }

  ghost predicate DeclaredThrough(info: seq<TaskInfo>, cols: seq<ColInfo>, declSeq: nat) {
    && (forall s {:trigger info[s]} :: 0 <= s < |info| ==> info[s].decl <= declSeq)
    && (forall c {:trigger cols[c]} :: 0 <= c < |cols| ==> cols[c].decl <= declSeq)
  }

  /** d is c or a container above it. */
  predicate OnChain(cols: seq<ColInfo>, c: int, d: int)
    decreases c
  {
    0 <= c < |cols| && (c == d || (cols[c].parent < c && OnChain(cols, cols[c].parent, d)))
  }

  /** Task s is a member of d, at some depth. */
  ghost predicate Below(info: seq<TaskInfo>, cols: seq<ColInfo>, s: nat, d: int) {
    s < |info| && OnChain(cols, info[s].home, d)
  }

  lemma {:induction false} ChainBounds(cols: seq<ColInfo>, c: int, d: int)
    requires OnChain(cols, c, d)
    ensures 0 <= d <= c < |cols|
    decreases c
  {
    if c != d {
      ChainBounds(cols, cols[c].parent, d);
    }
  }

  lemma {:induction false} ChainTransitive(cols: seq<ColInfo>, c: int, d: int, e: int)
    requires OnChain(cols, c, d) && OnChain(cols, d, e)
    ensures OnChain(cols, c, e)
    decreases c
  {
    if c != d {
      ChainTransitive(cols, cols[c].parent, d, e);
    }
  }

  /** Walking up from c: what is above d on the chain is above d's parent. */
  lemma {:induction false} ChainSplit(cols: seq<ColInfo>, c: int, d: int, e: int)
    requires OnChain(cols, c, d) && OnChain(cols, c, e) && e <= d
    ensures OnChain(cols, d, e)
    decreases c
  {
    if c == e {
      ChainBounds(cols, c, d);
    } else if c != d {
      ChainSplit(cols, cols[c].parent, d, e);
    }
  }

  /** More containers leave the chains there are. */
  lemma {:induction false} ChainLonger(a: seq<ColInfo>, b: seq<ColInfo>, c: int, d: int)
    requires OnChain(a, c, d) && a <= b
    ensures OnChain(b, c, d)
    decreases c
  {
    if c != d {
      ChainLonger(a, b, a[c].parent, d);
    }
  }

  /** Declaring another container leaves every chain as it was. */
  lemma {:induction false} ChainStable(cols: seq<ColInfo>, extra: ColInfo, c: int, d: int)
    requires ColsOk(cols) && c < |cols|
    ensures OnChain(cols + [extra], c, d) == OnChain(cols, c, d)
    decreases c
  {
    if 0 <= c && c != d {
      ChainStable(cols, extra, cols[c].parent, d);
    }
  }
}
