/** What an edge to a Group or Sequence reads, in the run's own terms: the Tasks
    declared below it, their states, and the builders still to run
    (eligibility.go). */
module Readings {
  import opened Outcomes
  import opened CollectionTally
  import opened Topology
  import opened Eligibility
  import opened WaitLists
  import opened RunState
  import opened Cascades
  import opened Rest
  import opened Declaring

  /** Task x sits below c and was declared through cursor. */
  ghost predicate DeclaredBelow(s: Sched, c: nat, cursor: int, x: nat) {
    Below(s.info, s.cols, x, c) && x < |s.state| && s.info[x].decl <= cursor
  }

  ghost predicate MemberIn(s: Sched, c: nat, cursor: int, x: nat, states: set<EntityState>) {
    DeclaredBelow(s, c, cursor, x) && s.state[x] in states
  }

  ghost predicate SomeMemberIn(s: Sched, c: nat, cursor: int, states: set<EntityState>) {
    exists x: nat :: MemberIn(s, c, cursor, x, states)
  }

  ghost predicate AllMembersIn(s: Sched, c: nat, cursor: int, states: set<EntityState>) {
    forall x: nat :: DeclaredBelow(s, c, cursor, x) ==> s.state[x] in states
  }

  /** Nothing has closed what an edge to c with cursor through reads. */
  ghost predicate Open(s: Sched, c: nat, through: nat)
    requires c < |s.tally|
  {
    GatePending(s, c) || (through == 0 && !s.tally[c].sealed && !s.draining)
  }

  /** The members it reads, once closed, are those declared through this. */
  function Through(s: Sched, c: nat, through: nat): int
    requires c < |s.tally|
  {
    if through != 0 then through else if s.tally[c].sealed then s.tally[c].sealedThrough else THROUGH_ALL
  }

  ghost predicate Reads(s: Sched, p: Pred, out: Outcome) {
    ViewOk(V(s)) && PredOk(p, |s.state|, |s.tally|) && OutcomeOf(V(s), p).0 == out
  }

  ghost predicate OneReads(s: Sched, ps: seq<Pred>, out: Outcome) { exists p :: p in ps && Reads(s, p, out) }

  ghost predicate EachReads(s: Sched, ps: seq<Pred>, out: Outcome) { forall p :: p in ps ==> Reads(s, p, out) }

  lemma TallyMembers(s: Sched, c: nat)
    requires Whole(s) && c < |s.cols|
    ensures c < |s.tally| && Current(s.tally[c], s.state) && |s.info| == |s.state| && ViewOk(V(s)) && |s.tally| == |s.cols|
    ensures forall i :: 0 <= i < |s.tally[c].members| ==>
      s.tally[c].members[i].id < |s.info| && s.tally[c].members[i].declaration == s.info[s.tally[c].members[i].id].decl
    ensures forall x: nat :: Below(s.info, s.cols, x, c) <==> exists i :: 0 <= i < |s.tally[c].members| && s.tally[c].members[i].id == x
    ensures forall i :: 0 <= i < |s.tally[c].members| ==> s.tally[c].members[i].declaration < THROUGH_ALL
  {
    hide Static, Tree, Life, NamedOk, Memory, Located, Edges, Led, QueueOk, Counts, Holds, Started, StartsPast,
        NoGate, GatesAlone, Below;
    WholeView(s);
    assert MembersAt(s.info, s.cols, s.tally[c], c) && Current(s.tally[c], s.state) by {
      assert s.tally[c] == s.tally[c];
      NoChain(s.cols, c);
    }
    forall x: nat ensures Below(s.info, s.cols, x, c) <==> exists i :: 0 <= i < |s.tally[c].members| && s.tally[c].members[i].id == x {
      assert x in Ids(s.tally[c].members) <==> Below(s.info, s.cols, x, c);
    }
  }

  lemma NoChain(cols: seq<ColInfo>, c: nat)
    ensures !OnChain(cols, -1, c)
  {
  }

  lemma WholeView(s: Sched)
    requires Whole(s)
    ensures ViewOk(V(s)) && |s.tally| == |s.cols| && |s.info| == |s.state|
  {
    hide Tree, Members, Life, NamedOk, Memory, Tallies, Located, Edges, Led, QueueOk, Counts, Holds, Started,
        StartsPast,
        NoGate, GatesAlone;
  }

  lemma StateSays(m: Member, state: seq<EntityState>)
    requires m.id < |state|
    ensures FailedIn(m, state) <==> state[m.id] in {Failed, Blocked, Cancelled, NotStarted}
    ensures SucceededIn(m, state) <==> state[m.id] in {Done, Skipped}
  {
  }

  /** The tally's three tests, in terms of the Tasks below the container. */
  lemma TalliesMean(s: Sched, c: nat, cursor: int)
    requires Whole(s) && c < |s.cols|
    ensures c < |s.tally|
    ensures HasMemberThrough(s.tally[c], cursor) <==> exists x: nat :: DeclaredBelow(s, c, cursor, x)
    ensures FailedThrough(s.tally[c], cursor) <==> SomeMemberIn(s, c, cursor, {Failed, Blocked, Cancelled, NotStarted})
    ensures SucceededThrough(s.tally[c], cursor) <==> AllMembersIn(s, c, cursor, {Done, Skipped})
  {
    hide Inv, Below, Current, FailedThrough, SucceededThrough, HasMemberThrough, DeclaredBelow;
    TallyMembers(s, c);
    MembersBothWays(s, c, cursor);
    var t := s.tally[c];
    FirstMember(t, s.state, cursor);
    FailedMeans(s, c, cursor);
    SucceededMeans(s, c, cursor);
    if HasMemberThrough(t, cursor) {
      var i :| 0 <= i < |t.members| && t.members[i].declaration <= cursor;
      assert DeclaredBelow(s, c, cursor, t.members[i].id);
    }
    if x: nat :| DeclaredBelow(s, c, cursor, x) {
      var i :| 0 <= i < |t.members| && t.members[i].id == x && t.members[i].declaration <= cursor;
    }
  }

  lemma FailedMeans(s: Sched, c: nat, cursor: int)
    requires Whole(s) && c < |s.cols| && c < |s.tally|
    ensures FailedThrough(s.tally[c], cursor) <==> SomeMemberIn(s, c, cursor, {Failed, Blocked, Cancelled, NotStarted})
  {
    hide Inv, Below, Current, FailedThrough, FailedIn, DeclaredBelow;
    TallyMembers(s, c);
    MembersBothWays(s, c, cursor);
    var t := s.tally[c];
    FailedThroughMeans(t, s.state, cursor);
    if FailedThrough(t, cursor) {
      var i :| 0 <= i < |t.members| && t.members[i].declaration <= cursor && FailedIn(t.members[i], s.state);
      StateSays(t.members[i], s.state);
      assert DeclaredBelow(s, c, cursor, t.members[i].id);
      assert MemberIn(s, c, cursor, t.members[i].id, {Failed, Blocked, Cancelled, NotStarted});
    }
    if SomeMemberIn(s, c, cursor, {Failed, Blocked, Cancelled, NotStarted}) {
      var x: nat :| MemberIn(s, c, cursor, x, {Failed, Blocked, Cancelled, NotStarted});
      var i :| 0 <= i < |t.members| && t.members[i].id == x && t.members[i].declaration <= cursor;
      StateSays(t.members[i], s.state);
    }
  }

  lemma SucceededMeans(s: Sched, c: nat, cursor: int)
    requires Whole(s) && c < |s.cols| && c < |s.tally|
    ensures SucceededThrough(s.tally[c], cursor) <==> AllMembersIn(s, c, cursor, {Done, Skipped})
  {
    hide Inv, Below, Current, SucceededThrough, SucceededIn;
    TallyMembers(s, c);
    MembersBothWays(s, c, cursor);
    var t := s.tally[c];
    SucceededThroughMeans(t, s.state, cursor);
    if SucceededThrough(t, cursor) {
      forall x: nat | DeclaredBelow(s, c, cursor, x) ensures s.state[x] in {Done, Skipped} {
        var i :| 0 <= i < |t.members| && t.members[i].id == x && t.members[i].declaration <= cursor;
        StateSays(t.members[i], s.state);
      }
    }
    if AllMembersIn(s, c, cursor, {Done, Skipped}) {
      forall i | 0 <= i < |t.members| && t.members[i].declaration <= cursor ensures SucceededIn(t.members[i], s.state) {
        assert DeclaredBelow(s, c, cursor, t.members[i].id);
        StateSays(t.members[i], s.state);
      }
    }
  }

  lemma FirstMember(t: Tally, state: seq<EntityState>, cursor: int)
    requires Current(t, state)
    ensures HasMemberThrough(t, cursor) <==> exists i :: 0 <= i < |t.members| && t.members[i].declaration <= cursor
  {
  }

  /** Members of the tally and Tasks below the container are the same. */
  lemma MembersBothWays(s: Sched, c: nat, cursor: int)
    requires Whole(s) && c < |s.cols| && c < |s.tally|
    ensures forall x: nat :: DeclaredBelow(s, c, cursor, x) <==>
      exists i :: 0 <= i < |s.tally[c].members| && s.tally[c].members[i].id == x && s.tally[c].members[i].declaration <= cursor
  {
    hide Inv, Below;
    TallyMembers(s, c);
  }

  /** What an edge reads while its membership is open, when no builder of it failed:
      failed once any Task below failed, and pending until then. */
  lemma OpenReads(s: Sched, c: nat, through: nat)
    requires Whole(s) && c < |s.cols| && c < |s.tally| && !s.tally[c].builderFailed && Open(s, c, through)
    ensures Reads(s, OnCol(c, through),
      if SomeMemberIn(s, c, THROUGH_ALL, {Failed, Blocked, Cancelled, NotStarted}) then PredFailed else PredPending)
  {
    hide Inv, GatePending, SomeMemberIn;
    WholeView(s);
    HoldsMeans(s, c);
    TalliesMean(s, c, THROUGH_ALL);
    FailsAtAll(s, c);
  }

  lemma FailsAtAll(s: Sched, c: nat)
    requires Whole(s) && c < |s.cols|
    ensures c < |s.tally| && (FailedThrough(s.tally[c], THROUGH_ALL) <==> s.tally[c].firstFailed != 0)
  {
    hide Inv;
    TallyMembers(s, c);
  }

  /** And once it is closed over some Task: failed once one of those declared in time
      failed, succeeded once all of them are Done or Skipped, and pending otherwise. */
  lemma ClosedReads(s: Sched, c: nat, through: nat)
    requires Whole(s) && c < |s.cols| && c < |s.tally| && !s.tally[c].builderFailed && !Open(s, c, through)
    requires exists x: nat :: DeclaredBelow(s, c, Through(s, c, through), x)
    ensures Reads(s, OnCol(c, through),
      if SomeMemberIn(s, c, Through(s, c, through), {Failed, Blocked, Cancelled, NotStarted}) then PredFailed
      else if AllMembersIn(s, c, Through(s, c, through), {Done, Skipped}) then PredSucceeded
      else PredPending)
  {
    hide Inv, GatePending, SomeMemberIn, AllMembersIn, DeclaredBelow;
    WholeView(s);
    HoldsMeans(s, c);
    TalliesMean(s, c, Through(s, c, through));
  }

  /** Closed over none, it ran nothing: it fails when something it starts after fails, has
      succeeded once all of that has, and is pending otherwise. */
  lemma EmptyReads(s: Sched, c: nat, through: nat)
    requires Whole(s) && c < |s.cols| && c < |s.tally| && !s.tally[c].builderFailed && !Open(s, c, through)
    requires !exists x: nat :: DeclaredBelow(s, c, Through(s, c, through), x)
    ensures c < |s.entry|
    ensures Reads(s, OnCol(c, through),
      if OneReads(s, s.entry[c], PredFailed) then PredFailed
      else if EachReads(s, s.entry[c], PredSucceeded) then PredSucceeded
      else PredPending)
  {
    hide Inv, GatePending, AllMembersIn, DeclaredBelow, OneReads, EachReads, OutcomeOf, EntryOutcome;
    WholeView(s);
    HoldsMeans(s, c);
    TalliesMean(s, c, Through(s, c, through));
    EntryAnswers(s, c);
    Forwards(V(s), c, through);
  }

  lemma Forwards(v: View, c: nat, through: nat)
    requires ViewOk(v) && c < |v.tally| && !v.tally[c].builderFailed
    requires var (cursor, open) := EdgeCursor(v.tally[c], through, v.draining);
      !open && !FailedThrough(v.tally[c], cursor) && !HasMemberThrough(v.tally[c], cursor)
    ensures OutcomeOf(v, OnCol(c, through)).0 == EntryOutcome(v, c, v.entry[c]).0
  {
  }

  lemma EntryAnswers(s: Sched, c: nat)
    requires ViewOk(V(s)) && c < |s.tally|
    ensures c < |s.entry| && PredsOk(s.entry[c], |s.state|, c)
    ensures EntryOutcome(V(s), c, s.entry[c]).0 ==
      if OneReads(s, s.entry[c], PredFailed) then PredFailed
      else if EachReads(s, s.entry[c], PredSucceeded) then PredSucceeded
      else PredPending
  {
    hide OutcomeOf, EntryOutcome;
    var es := s.entry[c];
    EntryReads(V(s), c, es);
    forall p | p in es ensures PredOk(p, |s.state|, |s.tally|) {
      var i :| 0 <= i < |es| && es[i] == p;
      assert PredOk(es[i], |s.state|, c);
    }
    assert forall i :: 0 <= i < |es| ==> es[i] in es;
  }
}
